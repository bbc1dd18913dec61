/** Runs of chain workflows. */
module ChainRuns {
  import opened Counting
  import opened Chains

  // ---------- what goes wrong ----------

  function StoredResults(results: map<nat, string>, k: nat, ending: Ending, store: bool): map<nat, string> {
    if Result(ending) != "" && store then results[k := Result(ending)] else results
  }

  /** What a call has done when it has stored its result and updated the record ... */
  lemma AfterUpdate(c: Chain, a: nat, store: bool, update: bool)
    requires a in c.phases && c.phases[a].Read?
    ensures var p, c' := c.phases[a], Apply(Apply(c, Store(a, store)), Update(a, update));
            var acked, on := p.ending.Acked?, p.ending.Acked? && p.c + 1 + p.f < |c.defs|;
            && c'.defs == c.defs && c'.pushed == c.pushed && c'.h.endings == c.h.endings && c'.h.twice == c.h.twice
            && c'.results == StoredResults(c.results, p.k, p.ending, store)
            && c'.h.acks == (if acked then c.h.acks[a := p.k] else c.h.acks)
            && a in c'.phases && c'.phases[a] == (if on && p.k + 1 < |c.defs| then Updated(p.k) else Ended)
            && c'.completed == (if !update then c.completed else if acked then p.c + 1 else p.c)
            && c'.failed == (if !update then c.failed else if acked then p.f else p.f + 1)
            && c'.state == if !update || on then c.state else if acked then Completed else Failed
  {
    var p := c.phases[a];
    var c1 := Apply(c, Store(a, store));
    assert c1.phases[a] == Stored(p.k, p.ending, p.c, p.f);
  }

  /** ... and when it has pushed the next step. */
  lemma AfterPush(c: Chain, a: nat, load: bool, push: bool)
    requires a in c.phases && c.phases[a].Updated? && c.phases[a].k + 1 < |c.defs|
    ensures var k, c' := c.phases[a].k, Apply(Apply(c, Load(a, load)), Push(a, push));
            var job := Pushed(k + 1, c.defs[k + 1], if load then Parents(c.results, k + 1) else [], load);
            && c'.defs == c.defs && c'.h.endings == c.h.endings && c'.h.twice == c.h.twice && c'.results == c.results
            && c'.completed == c.completed && c'.failed == c.failed && c'.state == c.state
            && a in c'.phases && c'.phases[a] == Ended && c'.pushed == c.pushed + (if push then [job] else [])
            && c'.h.acks == c.h.acks
  {}

  /** The other calls are where they were. */
  ghost predicate OthersStay(c: Chain, c': Chain, a: nat) {
    forall b | b != a :: (b in c'.phases <==> b in c.phases) && (b in c.phases ==> c'.phases[b] == c.phases[b])
  }

  lemma {:induction false} OwnSteps(c: Chain, run: seq<Step>, a: nat)
    requires Legal(c, run) && forall e | e in run :: e.a == a
    ensures OthersStay(c, Exec(c, run), a)
    decreases |run|
  {
    if run != [] {
      assert run[0] in run && forall e | e in run[1..] :: e in run;
      assert OthersStay(c, Apply(c, run[0]), a);
      OwnSteps(Apply(c, run[0]), run[1..], a);
    }
  }

  lemma PairUpdates(c: Chain, a: nat, store: bool, update: bool)
    requires a in c.phases && c.phases[a].Read? && c.phases[a].ending.Acked?
    requires c.phases[a].c + 1 + c.phases[a].f < |c.defs| && c.phases[a].k + 1 < |c.defs|
    ensures Legal(c, [Store(a, store), Update(a, update)])
    ensures var p, c' := c.phases[a], Exec(c, [Store(a, store), Update(a, update)]);
            && c'.defs == c.defs && c'.pushed == c.pushed && c'.h.endings == c.h.endings && c'.h.twice == c.h.twice
            && c'.results == StoredResults(c.results, p.k, p.ending, store)
            && a in c'.phases && c'.phases[a] == Updated(p.k) && c'.state == c.state && c'.h.acks == c.h.acks[a := p.k]
            && c'.completed == (if update then p.c + 1 else c.completed)
            && c'.failed == (if update then p.f else c.failed)
  {
    AfterUpdate(c, a, store, update);
    TwoSteps(c, Store(a, store), Update(a, update));
  }

  lemma PairPushes(c: Chain, a: nat, load: bool)
    requires a in c.phases && c.phases[a].Updated? && c.phases[a].k + 1 < |c.defs|
    ensures Legal(c, [Load(a, load), Push(a, true)])
    ensures var k, c' := c.phases[a].k, Exec(c, [Load(a, load), Push(a, true)]);
            var job := Pushed(k + 1, c.defs[k + 1], if load then Parents(c.results, k + 1) else [], load);
            && c'.defs == c.defs && c'.h.endings == c.h.endings && c'.h.twice == c.h.twice && c'.results == c.results
            && c'.completed == c.completed && c'.failed == c.failed && c'.state == c.state
            && a in c'.phases && c'.phases[a] == Ended && c'.pushed == c.pushed + [job] && c'.h.acks == c.h.acks
  {
    AfterPush(c, a, load, true);
    TwoSteps(c, Load(a, load), Push(a, true));
  }

  /** The rest of a call past its read; its store, update and load may fail. */
  function Rest(a: nat, store: bool, update: bool, load: bool): seq<Step> {
    [Store(a, store), Update(a, update), Load(a, load), Push(a, true)]
  }

  /** It pushes the next step, whatever the state of the workflow. */
  lemma RestPushes(c: Chain, a: nat, store: bool, update: bool, load: bool)
    requires a in c.phases && c.phases[a].Read? && c.phases[a].ending.Acked?
    requires c.phases[a].c + 1 + c.phases[a].f < |c.defs| && c.phases[a].k + 1 < |c.defs|
    ensures Legal(c, Rest(a, store, update, load))
    ensures var p, c' := c.phases[a], Exec(c, Rest(a, store, update, load));
            var results := StoredResults(c.results, p.k, p.ending, store);
            && c'.pushed == c.pushed + [Pushed(p.k + 1, c.defs[p.k + 1],
                                               if load then Parents(results, p.k + 1) else [], load)]
            && a in c'.phases && c'.phases[a] == Ended && OthersStay(c, c', a)
            && c'.state == c.state && c'.defs == c.defs && c'.h.acks == c.h.acks[a := p.k]
            && c'.completed == (if update then p.c + 1 else c.completed)
            && c'.failed == (if update then p.f else c.failed) && c'.h.endings == c.h.endings && c'.h.twice == c.h.twice
  {
    PairUpdates(c, a, store, update);
    PairPushes(Exec(c, [Store(a, store), Update(a, update)]), a, load);
    RunConcat(c, [Store(a, store), Update(a, update)], [Load(a, load), Push(a, true)]);
    assert [Store(a, store), Update(a, update)] + [Load(a, load), Push(a, true)] == Rest(a, store, update, load);
    OwnSteps(c, Rest(a, store, update, load), a);
  }

  function Start(r: string): Step {
    Begin(0, 0, Acked(r), true)
  }

  lemma Started(defs: seq<Definition>, r: string)
    requires defs != []
    ensures Enabled(Create(defs), Start(r))
    ensures var c := Apply(Create(defs), Start(r));
            c == Create(defs).(phases := map[0 := Read(0, Acked(r), 0, 0)], h := c.h)
            && c.h == Create(defs).h.(endings := map[0 := Acked(r)])
  {
    assert Create(defs).pushed[0].step == 0;
  }

  /** A call that read before the cancellation pushes its step after it. */
  lemma CancelTooLate(defs: seq<Definition>, r: string) returns (before: seq<Step>, after: seq<Step>)
    requires |defs| >= 2
    ensures Legal(Create(defs), before) && Legal(Exec(Create(defs), before), after)
    ensures var c, c' := Exec(Create(defs), before), Exec(Exec(Create(defs), before), after);
            && c.state == Cancelled && |c.pushed| == 1
            && c'.state == Cancelled && |c'.pushed| == 2 && c'.pushed[1].step == 1
  {
    before := CancelledWhileLive(defs, r);
    after := Rest(0, true, true, true);
    RestPushes(Exec(Create(defs), before), 0, true, true, true);
  }

  lemma CancelledWhileLive(defs: seq<Definition>, r: string) returns (run: seq<Step>)
    requires defs != []
    ensures Legal(Create(defs), run)
    ensures var c := Exec(Create(defs), run);
            && c.state == Cancelled && c.pushed == Create(defs).pushed && c.defs == defs
            && 0 in c.phases && c.phases[0] == Read(0, Acked(r), 0, 0)
  {
    Started(defs, r);
    var c1 := Apply(Create(defs), Start(r));
    TwoSteps(c1, CancelRead(1, true), CancelWrite(1, true));
    Then(Create(defs), Start(r), [CancelRead(1, true), CancelWrite(1, true)]);
    run := [Start(r)] + [CancelRead(1, true), CancelWrite(1, true)];
  }

  /** And a call for the last step overwrites `cancelled` with `completed`. */
  lemma CancelOverwritten(defs: seq<Definition>, r: string) returns (before: seq<Step>, after: seq<Step>)
    requires |defs| == 1
    ensures Legal(Create(defs), before) && Legal(Exec(Create(defs), before), after)
    ensures Exec(Create(defs), before).state == Cancelled
    ensures Exec(Exec(Create(defs), before), after).state == Completed
  {
    before := CancelledWhileLive(defs, r);
    after := [Store(0, true), Update(0, true)];
    TwoSteps(Exec(Create(defs), before), Store(0, true), Update(0, true));
  }

  /** The errors of storing and of reading the RESULT rows are ignored: the second step
      is given the first one's result only if both succeed. */
  lemma ResultDropped(defs: seq<Definition>, r: string, store: bool, load: bool) returns (run: seq<Step>)
    requires |defs| >= 2 && r != ""
    ensures Legal(Create(defs), run)
    ensures var c := Exec(Create(defs), run);
            && |c.pushed| == 2 && Passed(c.h.endings, 1) == [r]
            && c.pushed[1].parents == if store && load then [r] else []
  {
    Started(defs, r);
    var c1 := Apply(Create(defs), Start(r));
    RestPushes(c1, 0, store, true, load);
    Then(Create(defs), Start(r), Rest(0, store, true, load));
    run := [Start(r)] + Rest(0, store, true, load);
    assert Passed(map[0 := Acked(r)], 1) == Passed(map[0 := Acked(r)], 0) + [r];
    assert Parents(map[0 := r], 1) == Parents(map[0 := r], 0) + [r];
    assert Parents(map[], 1) == Parents(map[], 0);
  }

  lemma FirstUpdateFails(defs: seq<Definition>, r: string) returns (run: seq<Step>)
    requires |defs| == 2
    ensures Legal(Create(defs), run)
    ensures var c := Exec(Create(defs), run);
            && c.state == Running && c.completed == 0 && c.failed == 0 && |c.pushed| == 2 && c.pushed[1].step == 1
            && (forall a | a in c.phases :: a == 0 && c.phases[a].Ended?)
            && c.h.endings == map[0 := Acked(r)] && !c.h.twice && c.defs == defs
  {
    Started(defs, r);
    RestPushes(Apply(Create(defs), Start(r)), 0, true, false, true);
    Then(Create(defs), Start(r), Rest(0, true, false, true));
    run := [Start(r)] + Rest(0, true, false, true);
  }

  /** The error of the record update is ignored too: if the first of two updates fails,
      both steps are acknowledged, the early return is taken and the workflow stays
      running with every call ended. */
  lemma IgnoredUpdateStrands(defs: seq<Definition>, r: string) returns (run: seq<Step>)
    requires |defs| == 2
    ensures Legal(Create(defs), run)
    ensures var c := Exec(Create(defs), run);
            c.h.early && c.state == Running && |c.pushed| == 2 && AllAcked(c) && NoneLive(c) && !c.h.twice
  {
    var first := FirstUpdateFails(defs, r);
    var c := Exec(Create(defs), first);
    var e := Begin(1, 1, Acked(r), true);
    var tail := [Store(1, true), Update(1, true)];
    TwoSteps(Apply(c, e), Store(1, true), Update(1, true));
    Then(c, e, tail);
    RunConcat(Create(defs), first, [e] + tail);
    run := first + ([e] + tail);
  }

  // ---------- how often steps may end ----------

  /** How often the run ends step `k`. */
  function Begins(run: seq<Step>, k: nat): nat {
    if run == [] then 0 else (if run[0].Begin? && run[0].k == k then 1 else 0) + Begins(run[1..], k)
  }

  lemma {:induction false} BeginsConcat(a: seq<Step>, b: seq<Step>, k: nat)
    ensures Begins(a + b, k) == Begins(a, k) + Begins(b, k)
    decreases |a|
  {
    if a == [] {
      assert a + b == b;
    } else {
      assert (a + b)[0] == a[0] && (a + b)[1..] == a[1..] + b;
      BeginsConcat(a[1..], b, k);
    }
  }

  /** Step `k` ends at most `ends(k)` times. */
  ghost predicate Respects(run: seq<Step>, ends: nat -> nat) {
    forall k: nat :: Begins(run, k) <= ends(k)
  }

  /** The calls for step `k` that may still push. */
  function LiveFor(c: Chain, k: nat): set<nat> {
    set a | a in c.phases && c.phases[a].Live() && c.phases[a].k == k
  }

  function Advances(c: Chain, k: nat): nat {
    multiset(c.h.advances)[k] + |LiveFor(c, k)|
  }

  lemma OneMoreAdvance(c: Chain, e: Step, k: nat)
    requires Enabled(c, e)
    ensures Advances(Apply(c, e), k) <= Advances(c, k) + if e.Begin? && e.k == k then 1 else 0
  {
    var c' := Apply(c, e);
    if e.Push? && e.ok {
      assert LiveFor(c', k) == LiveFor(c, k) - {e.a};
      if c.phases[e.a].k == k { assert e.a in LiveFor(c, k); }
    } else {
      SameJobs(c, e);
      forall a | a in LiveFor(c', k) ensures a in LiveFor(c, k) || (e.Begin? && a == e.a && e.k == k) {
        SameStep(c, e, a);
      }
      if e.Begin? && e.k == k {
        SubsetSize(LiveFor(c', k), LiveFor(c, k) + {e.a});
      } else {
        SubsetSize(LiveFor(c', k), LiveFor(c, k));
      }
    }
  }

  lemma {:induction false} AdvancesBounded(c: Chain, run: seq<Step>, k: nat)
    requires Legal(c, run)
    ensures Advances(Exec(c, run), k) <= Advances(c, k) + Begins(run, k)
    decreases |run|
  {
    if run != [] {
      OneMoreAdvance(c, run[0], k);
      AdvancesBounded(Apply(c, run[0]), run[1..], k);
    }
  }

  lemma DistinctOnce(s: seq<nat>, i: nat, j: nat)
    requires i < j < |s| && s[i] == s[j]
    ensures multiset(s)[s[i]] >= 2
  {
    assert s == s[..j] + s[j..] && s[i] == s[..j][i] && s[j] == s[j..][0];
    assert s[i] in multiset(s[..j]) && s[i] in multiset(s[j..]);
  }

  lemma OnceInOrder(defs: seq<Definition>, ends: nat -> nat, run: seq<Step>)
    requires defs != [] && Legal(Create(defs), run) && Respects(run, ends)
    requires forall k: nat | k + 1 < |defs| :: ends(k) <= 1
    ensures InOrder(Exec(Create(defs), run))
  {
    StepsInOrder(defs, run);
    RunTraced(Create(defs), run);
    var c := Exec(Create(defs), run);
    forall i: nat, j: nat | i < j < |c.h.advances| ensures c.h.advances[i] != c.h.advances[j] {
      var k := c.h.advances[i];
      assert Follows(c, i) && k + 1 < |defs|;
      AdvancesBounded(Create(defs), run, k);
      assert LiveFor(Create(defs), k) == {};
      assert Begins(run, k) <= ends(k);
      if c.h.advances[j] == k { DistinctOnce(c.h.advances, i, j); }
    }
  }

  /** One undisturbed call for each of the first `n` steps. */
  ghost predicate Walked(defs: seq<Definition>, c: Chain, n: nat) {
    && c.state == Running && c.completed == n && c.failed == 0 && c.defs == defs
    && |c.pushed| == n + 1 && c.pushed[n].step == n && forall a | a in c.phases :: a < n
  }

  function Walk(a: nat, k: nat): seq<Step> {
    [Begin(a, k, Acked(""), true)] + Rest(a, true, true, true)
  }

  lemma BeginsRest(a: nat, k: nat)
    ensures Begins(Rest(a, true, true, true), k) == 0
  {
    var r := Rest(a, true, true, true);
    assert r[1..] == [r[1], r[2], r[3]] && r[1..][1..] == [r[2], r[3]] && r[1..][1..][1..] == [r[3]];
    assert [r[3]][1..] == [] && Begins([r[3]], k) == 0 && Begins([r[2], r[3]], k) == 0;
  }

  lemma BeginsWalk(a: nat, k: nat, j: nat)
    ensures Begins(Walk(a, k), j) == if j == k then 1 else 0
  {
    assert Walk(a, k)[1..] == Rest(a, true, true, true);
    BeginsRest(a, j);
  }

  lemma WalkOn(defs: seq<Definition>, c: Chain, n: nat)
    requires Walked(defs, c, n) && n + 1 < |defs|
    ensures Legal(c, Walk(n, n)) && Walked(defs, Exec(c, Walk(n, n)), n + 1)
  {
    var e := Begin(n, n, Acked(""), true);
    assert Enabled(c, e);
    RestPushes(Apply(c, e), n, true, true, true);
    Then(c, e, Rest(n, true, true, true));
  }

  lemma {:induction false} WalkTo(defs: seq<Definition>, n: nat) returns (run: seq<Step>)
    requires n < |defs|
    ensures Legal(Create(defs), run) && Walked(defs, Exec(Create(defs), run), n)
    ensures forall j: nat :: Begins(run, j) == if j < n then 1 else 0
    decreases n
  {
    run := [];
    if n > 0 {
      var before := WalkTo(defs, n - 1);
      WalkOn(defs, Exec(Create(defs), before), n - 1);
      RunConcat(Create(defs), before, Walk(n - 1, n - 1));
      run := before + Walk(n - 1, n - 1);
      forall j: nat ensures Begins(run, j) == if j < n then 1 else 0 {
        BeginsConcat(before, Walk(n - 1, n - 1), j);
        BeginsWalk(n - 1, n - 1, j);
      }
    }
  }

  /** Two calls for step `k`, numbered `k` and `k + 1`, both past their reads ... */
  function BeginBoth(k: nat): seq<Step> {
    [Begin(k, k, Acked(""), true), Begin(k + 1, k, Acked(""), true)]
  }

  /** ... and then both run to their ends. */
  function EndBoth(k: nat): seq<Step> {
    Rest(k, true, true, true) + Rest(k + 1, true, true, true)
  }

  lemma BothBegin(defs: seq<Definition>, c: Chain, k: nat)
    requires Walked(defs, c, k) && k + 1 < |defs|
    ensures Legal(c, BeginBoth(k))
    ensures var c' := Exec(c, BeginBoth(k));
            && k in c'.phases && k + 1 in c'.phases && c'.defs == defs && c'.pushed == c.pushed
            && c'.phases[k] == Read(k, Acked(""), k, 0) && c'.phases[k + 1] == Read(k, Acked(""), k, 0)
  {
    assert HasStep(c.pushed, k);
    TwoSteps(c, Begin(k, k, Acked(""), true), Begin(k + 1, k, Acked(""), true));
  }

  lemma BothPush(c: Chain, k: nat)
    requires k + 1 < |c.defs| && |c.pushed| == k + 1 && k in c.phases && k + 1 in c.phases
    requires c.phases[k] == Read(k, Acked(""), k, 0) && c.phases[k + 1] == Read(k, Acked(""), k, 0)
    ensures Legal(c, EndBoth(k)) && !InOrder(Exec(c, EndBoth(k)))
  {
    RestPushes(c, k, true, true, true);
    var c1 := Exec(c, Rest(k, true, true, true));
    RestPushes(c1, k + 1, true, true, true);
    RunConcat(c, Rest(k, true, true, true), Rest(k + 1, true, true, true));
    assert Exec(c, EndBoth(k)).pushed[k + 2].step == k + 1;
  }

  lemma BeginsBoth(k: nat, j: nat)
    ensures Begins(BeginBoth(k) + EndBoth(k), j) == if j == k then 2 else 0
  {
    var b := BeginBoth(k);
    assert b[1..] == [b[1]] && [b[1]][1..] == [] && Begins([b[1]], j) == if j == k then 1 else 0;
    BeginsConcat(b, EndBoth(k), j);
    BeginsConcat(Rest(k, true, true, true), Rest(k + 1, true, true, true), j);
    BeginsRest(k, j);
    BeginsRest(k + 1, j);
  }

  /** A step that ends twice while both calls read a running record has its successor
      pushed twice. */
  lemma EndsTwicePushesTwice(defs: seq<Definition>, ends: nat -> nat, k: nat) returns (run: seq<Step>)
    requires k + 1 < |defs| && ends(k) >= 2 && forall j: nat | j < |defs| :: ends(j) >= 1
    ensures Legal(Create(defs), run) && Respects(run, ends) && !InOrder(Exec(Create(defs), run))
  {
    var before := WalkTo(defs, k);
    var c := Exec(Create(defs), before);
    BothBegin(defs, c, k);
    BothPush(Exec(c, BeginBoth(k)), k);
    RunConcat(c, BeginBoth(k), EndBoth(k));
    RunConcat(Create(defs), before, BeginBoth(k) + EndBoth(k));
    run := before + (BeginBoth(k) + EndBoth(k));
    forall j: nat ensures Begins(run, j) <= ends(j) {
      BeginsConcat(before, BeginBoth(k) + EndBoth(k), j);
      BeginsBoth(k, j);
    }
  }

  /** For a chain whose steps all end: in every run the steps are pushed in order, if and
      only if no step but the last ends twice. */
  lemma InOrderIff(defs: seq<Definition>, ends: nat -> nat)
    requires defs != [] && forall j: nat | j < |defs| :: ends(j) >= 1
    ensures (forall run | Legal(Create(defs), run) && Respects(run, ends) :: InOrder(Exec(Create(defs), run))) <==>
            forall k: nat | k + 1 < |defs| :: ends(k) == 1
  {
    if forall k: nat | k + 1 < |defs| :: ends(k) == 1 {
      forall run | Legal(Create(defs), run) && Respects(run, ends) ensures InOrder(Exec(Create(defs), run)) {
        OnceInOrder(defs, ends, run);
      }
    } else {
      var k: nat :| k + 1 < |defs| && ends(k) != 1;
      var run := EndsTwicePushesTwice(defs, ends, k);
    }
  }

  // ---------- one call at a time ----------

  /** Which store calls of an AdvanceWorkflow call succeed. */
  datatype Calls = Calls(read: bool, store: bool, update: bool, load: bool, push: bool)

  /** Call `a` of AdvanceWorkflow, for step `k`, that nothing interrupts. */
  ghost function Advance(c: Chain, a: nat, k: nat, ending: Ending, x: Calls): Chain
    requires Enabled(c, Begin(a, k, ending, x.read))
  {
    var c1 := Apply(c, Begin(a, k, ending, x.read));
    if c1.phases[a].Ended? then c1
    else
      var c2 := Apply(Apply(c1, Store(a, x.store)), Update(a, x.update));
      if c2.phases[a].Ended? then c2 else Apply(Apply(c2, Load(a, x.load)), Push(a, x.push))
  }

  /** It is a run of the machine. */
  lemma AdvanceIsRun(c: Chain, a: nat, k: nat, ending: Ending, x: Calls) returns (run: seq<Step>)
    requires Enabled(c, Begin(a, k, ending, x.read))
    ensures Legal(c, run) && Exec(c, run) == Advance(c, a, k, ending, x)
  {
    var e := Begin(a, k, ending, x.read);
    var c1 := Apply(c, e);
    run := [];
    if !c1.phases[a].Ended? {
      run := [Store(a, x.store), Update(a, x.update)];
      TwoSteps(c1, run[0], run[1]);
      var c2 := Exec(c1, run);
      if !c2.phases[a].Ended? {
        var tail := [Load(a, x.load), Push(a, x.push)];
        TwoSteps(c2, tail[0], tail[1]);
        RunConcat(c1, run, tail);
        run := run + tail;
      }
    }
    Then(c, e, run);
    run := [e] + run;
  }

  /** What is stored: the record, its RESULT rows and the jobs pushed for it. */
  datatype Rows = Rows(
    defs: seq<Definition>,
    state: ChainState,
    completed: nat,
    failed: nat,
    results: map<nat, string>,
    pushed: seq<Pushed>)

  function RowsOf(c: Chain): Rows {
    Rows(c.defs, c.state, c.completed, c.failed, c.results, c.pushed)
  }

  /** The net effect of an uninterrupted call on the rows. */
  function Net(r: Rows, k: nat, ending: Ending, x: Calls): Rows {
    if !x.read || r.state != Running then r
    else
      var acked := ending.Acked?;
      var on := acked && r.completed + 1 + r.failed < |r.defs|;
      var results := StoredResults(r.results, k, ending, x.store);
      var parents := if x.load then Parents(results, k + 1) else [];
      r.(results := results,
         completed := if x.update && acked then r.completed + 1 else r.completed,
         failed := if x.update && !acked then r.failed + 1 else r.failed,
         state := if !x.update || on then Running else if acked then Completed else Failed,
         pushed := if on && k + 1 < |r.defs| && x.push
                   then r.pushed + [Pushed(k + 1, r.defs[k + 1], parents, x.load)]
                   else r.pushed)
  }

  /** The net effect is that of the machine's steps. */
  lemma AdvanceNet(c: Chain, a: nat, k: nat, ending: Ending, x: Calls)
    requires Enabled(c, Begin(a, k, ending, x.read))
    ensures RowsOf(Advance(c, a, k, ending, x)) == Net(RowsOf(c), k, ending, x)
  {
    if x.read && c.state == Running {
      if ending.Acked? && c.completed + 1 + c.failed < |c.defs| && k + 1 < |c.defs| {
        PushingNet(c, a, k, ending, x);
      } else {
        EndingNet(c, a, k, ending, x);
      }
    }
  }

  lemma EndingNet(c: Chain, a: nat, k: nat, ending: Ending, x: Calls)
    requires Enabled(c, Begin(a, k, ending, x.read)) && x.read && c.state == Running
    requires !(ending.Acked? && c.completed + 1 + c.failed < |c.defs| && k + 1 < |c.defs|)
    ensures RowsOf(Advance(c, a, k, ending, x)) == Net(RowsOf(c), k, ending, x)
  {
    AfterUpdate(Apply(c, Begin(a, k, ending, x.read)), a, x.store, x.update);
  }

  lemma PushingNet(c: Chain, a: nat, k: nat, ending: Ending, x: Calls)
    requires Enabled(c, Begin(a, k, ending, x.read)) && x.read && c.state == Running
    requires ending.Acked? && c.completed + 1 + c.failed < |c.defs| && k + 1 < |c.defs|
    ensures RowsOf(Advance(c, a, k, ending, x)) == Net(RowsOf(c), k, ending, x)
  {
    HeadNet(c, a, k, ending, x);
    AfterPush(Head(c, a, k, ending, x), a, x.load, x.push);
  }

  /** The part of a call up to its update. */
  ghost function Head(c: Chain, a: nat, k: nat, ending: Ending, x: Calls): Chain
    requires Enabled(c, Begin(a, k, ending, x.read)) && x.read && c.state == Running
  {
    Apply(Apply(Apply(c, Begin(a, k, ending, x.read)), Store(a, x.store)), Update(a, x.update))
  }

  lemma HeadNet(c: Chain, a: nat, k: nat, ending: Ending, x: Calls)
    requires Enabled(c, Begin(a, k, ending, x.read)) && x.read && c.state == Running
    requires ending.Acked? && c.completed + 1 + c.failed < |c.defs| && k + 1 < |c.defs|
    ensures var c' := Head(c, a, k, ending, x);
            && a in c'.phases && c'.phases[a] == Updated(k)
            && RowsOf(c') == Net(RowsOf(c), k, ending, x.(push := false))
  {
    AfterUpdate(Apply(c, Begin(a, k, ending, x.read)), a, x.store, x.update);
  }

  /** The stored rows of a chain. */
  class Workflow {
    var defs: seq<Definition>
    var state: ChainState
    var completed: nat
    var failed: nat
    var results: map<nat, string>
    var pushed: seq<Pushed>

    ghost function Stored(): Rows
      reads this
    {
      Rows(defs, state, completed, failed, results, pushed)
    }

    /** CreateWorkflow indexes the first step without looking. If its Push fails, the
        stored workflow stays behind without a job. */
    method CreateWorkflow(steps: seq<Definition>, put: bool, push: bool) returns (ok: bool)
      requires steps != []
      modifies this
      ensures ok <==> put && push
      ensures Stored() == if ok then RowsOf(Create(steps))
                          else if put then RowsOf(Create(steps)).(pushed := []) else old(Stored())
    {
      if !put { return false; }
      defs, state, completed, failed, results, pushed := steps, Running, 0, 0, map[], [];
      if !push { return false; }
      pushed := [Pushed(0, steps[0], [], true)];
      return true;
    }

    /** enqueueChainStep for step `k`. */
    method EnqueueChainStep(k: nat, load: bool, push: bool)
      modifies `pushed
      ensures k >= |defs| || !push ==> pushed == old(pushed)
      ensures k < |defs| && push ==>
                pushed == old(pushed) + [Pushed(k, defs[k], if load then Parents(results, k) else [], load)]
    {
      if k >= |defs| { return; }
      var parents := [];
      var stored := if load then results else map[];
      for i := 0 to k
        invariant parents == if load then Parents(results, i) else []
      {
        if i in stored {
          parents := parents + [stored[i]];
        }
      }
      if push {
        pushed := pushed + [Pushed(k, defs[k], parents, load)];
      }
    }

    /** AdvanceWorkflow for a chain. */
    method AdvanceWorkflow(k: nat, ending: Ending, x: Calls)
      modifies this
      ensures Stored() == Net(old(Stored()), k, ending, x)
    {
      if !x.read || state != Running { return; }
      var result := Result(ending);
      if result != "" && x.store {
        results := results[k := result];
      }
      var done, bad := completed, failed;
      if ending.Discarded? {
        bad := bad + 1;
      } else {
        done := done + 1;
      }
      if ending.Discarded? {
        if x.update { completed, failed, state := done, bad, Failed; }
        return;
      }
      if done + bad >= |defs| {
        if x.update { completed, failed, state := done, bad, Completed; }
        return;
      }
      if x.update { completed, failed := done, bad; }
      EnqueueChainStep(k + 1, x.load, x.push);
    }

    /** The members are cancelled in between; the error of the update is ignored. */
    method CancelWorkflow(update: bool) returns (accepted: bool)
      modifies `state
      ensures accepted <==> old(state) == Running
      ensures state == if accepted && update then Cancelled else old(state)
    {
      if state == Completed || state == Failed || state == Cancelled { return false; }
      if update { state := Cancelled; }
      return true;
    }
  }
}
