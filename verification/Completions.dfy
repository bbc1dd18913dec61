/** When a completed chain has all its steps acknowledged. */
module Completions {
  import opened Counting
  import opened Chains
  import opened ChainRuns

  /** The steps that a call has reported as acknowledged, as far as its update. */
  function AckedSteps(c: Chain): set<nat> {
    Who(c.h.acks, c.h.acks.Keys)
  }

  ghost predicate Everyone(c: Chain) {
    AckedSteps(c) == Members(|c.defs|)
  }

  /** A call that has read holds no more than was acknowledged, and what it reports is new. */
  ghost predicate CallCounted(c: Chain, a: nat, p: Phase) {
    match p
    case Read(k, _, n, f) => a !in c.h.acks && k < |c.defs| && f == 0 && n <= |c.h.acks|
    case Stored(k, _, n, f) => a !in c.h.acks && k < |c.defs| && f == 0 && n <= |c.h.acks|
    case Updated(k) => k in AckedSteps(c)
    case Loaded(k, _, _) => k in AckedSteps(c)
    case _ => true
  }

  ghost predicate AckPushed(c: Chain, a: nat)
    requires a in c.h.acks
  {
    c.h.acks[a] < |c.defs| && HasStep(c.pushed, c.h.acks[a])
  }

  /** The counter never exceeds the acknowledgements, and a completed chain has had as many
      as it has steps. */
  ghost predicate Backed(c: Chain) {
    && c.completed <= |c.h.acks| && c.h.acks.Keys <= c.phases.Keys
    && (!c.h.stale && c.h.missed == 0 ==> c.completed == |c.h.acks|)
    && (forall a | a in c.h.acks :: AckPushed(c, a))
    && (c.state == Running ==> c.failed == 0 && c.completed < |c.defs|)
    && (c.state == Completed ==> |c.h.acks| >= |c.defs|)
    && (forall a | a in c.phases :: CallCounted(c, a, c.phases[a]))
    && (forall i: nat | i < |c.h.advances| :: c.h.advances[i] in AckedSteps(c))
  }

  lemma MoreAcks(acks: map<nat, nat>, a: nat, k: nat)
    requires a !in acks
    ensures |acks[a := k]| == |acks| + 1
    ensures Who(acks[a := k], acks[a := k].Keys) == Who(acks, acks.Keys) + {k}
  {
    assert acks[a := k].Keys == acks.Keys + {a};
    assert |acks.Keys| == |acks| && |acks[a := k].Keys| == |acks[a := k]|;
    var acks' := acks[a := k];
    forall x | x in Who(acks, acks.Keys) ensures x in Who(acks', acks'.Keys) {
      var b :| b in acks && acks[b] == x;
      assert b in acks' && acks'[b] == x;
    }
  }

  lemma UpdateKeepsBacked(c: Chain, a: nat, ok: bool)
    requires Backed(c) && Traced(c) && Enabled(c, Update(a, ok))
    ensures Backed(Apply(c, Update(a, ok)))
  {
    var p, c' := c.phases[a], Apply(c, Update(a, ok));
    assert CallCounted(c, a, p) && TracedCall(c, p);
    if p.ending.Acked? { MoreAcks(c.h.acks, a, p.k); }
    assert AckedSteps(c) <= AckedSteps(c');
    forall b | b in c'.h.acks ensures AckPushed(c', b) {
      if b != a { assert AckPushed(c, b); }
    }
    forall b | b in c'.phases ensures CallCounted(c', b, c'.phases[b]) {
      if b != a { assert CallCounted(c, b, c.phases[b]); }
    }
  }

  lemma PushKeepsBacked(c: Chain, a: nat)
    requires Backed(c) && Enabled(c, Push(a, true))
    ensures Backed(Apply(c, Push(a, true)))
  {
    var c' := Apply(c, Push(a, true));
    assert CallCounted(c, a, c.phases[a]) && AckedSteps(c') == AckedSteps(c);
    forall b | b in c'.h.acks ensures AckPushed(c', b) {
      assert AckPushed(c, b);
      MoreHasStep(c.pushed, c'.pushed[|c.pushed|], c.h.acks[b]);
    }
    forall b | b in c'.phases ensures CallCounted(c', b, c'.phases[b]) {
      if b != a { assert CallCounted(c, b, c.phases[b]); }
    }
  }

  lemma OthersStayCounted(c: Chain, e: Step, b: nat)
    requires Backed(c) && Enabled(c, e) && !e.Update? && b in Apply(c, e).phases
    requires e.Begin? ==> e.k < |c.defs|
    ensures CallCounted(Apply(c, e), b, Apply(c, e).phases[b])
  {
    assert AckedSteps(Apply(c, e)) == AckedSteps(c);
    if b in c.phases { assert CallCounted(c, b, c.phases[b]); }
  }

  lemma RestKeepsBacked(c: Chain, e: Step)
    requires Backed(c) && TracedJobs(c) && Enabled(c, e) && !e.Update? && !(e.Push? && e.ok)
    ensures Backed(Apply(c, e))
  {
    var c' := Apply(c, e);
    SameJobs(c, e);
    assert c'.h.acks == c.h.acks && AckedSteps(c') == AckedSteps(c);
    forall b | b in c'.h.acks ensures AckPushed(c', b) { assert AckPushed(c, b); }
    forall b | b in c'.phases ensures CallCounted(c', b, c'.phases[b]) { OthersStayCounted(c, e, b); }
  }

  lemma {:induction false} RunBacked(c: Chain, run: seq<Step>)
    requires Backed(c) && Traced(c) && Legal(c, run)
    ensures Backed(Exec(c, run)) && Traced(Exec(c, run))
    decreases |run|
  {
    if run != [] {
      var e := run[0];
      KeepsTraced(c, e);
      if e.Update? {
        UpdateKeepsBacked(c, e.a, e.ok);
      } else if e.Push? && e.ok {
        PushKeepsBacked(c, e.a);
      } else {
        RestKeepsBacked(c, e);
      }
      RunBacked(Apply(c, e), run[1..]);
    }
  }

  lemma Reached(defs: seq<Definition>, run: seq<Step>)
    requires defs != [] && Legal(Create(defs), run)
    ensures var c := Exec(Create(defs), run); Backed(c) && Traced(c) && c.defs == defs
  {
    RunBacked(Create(defs), run);
    RunTraced(Create(defs), run);
  }

  /** Below a pushed step everything was acknowledged. */
  lemma {:induction false} AckedBelow(c: Chain, i: nat, j: nat)
    requires Backed(c) && Traced(c) && i < |c.pushed| && j < c.pushed[i].step
    ensures j in AckedSteps(c)
    decreases i
  {
    if i > 0 {
      assert Follows(c, i - 1);
      var k := c.h.advances[i - 1];
      if j < k {
        var b :| 0 <= b < i && c.pushed[..i][b].step == k;
        AckedBelow(c, b, j);
      }
    }
  }

  lemma StepsBounded(c: Chain)
    requires Backed(c)
    ensures AckedSteps(c) <= Members(|c.defs|) && |c.h.acks.Keys| == |c.h.acks|
  {
    forall k | k in AckedSteps(c) ensures k in Members(|c.defs|) {
      var a :| a in c.h.acks && c.h.acks[a] == k;
      assert AckPushed(c, a);
    }
  }

  /** If the last step was acknowledged, all were. */
  lemma LastSaysAll(c: Chain)
    requires Backed(c) && Traced(c) && c.defs != []
    ensures Everyone(c) <==> |c.defs| - 1 in AckedSteps(c)
  {
    StepsBounded(c);
    if |c.defs| - 1 in AckedSteps(c) {
      var a :| a in c.h.acks && c.h.acks[a] == |c.defs| - 1;
      assert AckPushed(c, a);
      var i :| 0 <= i < |c.pushed| && c.pushed[i].step == |c.defs| - 1;
      forall j: nat | j < |c.defs| ensures j in AckedSteps(c) {
        if j < |c.defs| - 1 { AckedBelow(c, i, j); }
      }
    }
  }

  /** In every run, whatever fails, interleaves or ends again: the steps have all been
      acknowledged if and only if the last one has; a completed chain has had as many
      acknowledgements as it has steps, and if no two of them are for the same step, all
      steps have been acknowledged. */
  lemma CompletedMeans(defs: seq<Definition>, run: seq<Step>)
    requires defs != [] && Legal(Create(defs), run)
    ensures var c := Exec(Create(defs), run);
            && (Everyone(c) <==> |defs| - 1 in AckedSteps(c))
            && (c.state == Completed ==> |c.h.acks| >= |defs|)
            && (c.state == Completed && Apart(c.h.acks, c.h.acks.Keys) ==> Everyone(c))
  {
    Reached(defs, run);
    var c := Exec(Create(defs), run);
    LastSaysAll(c);
    if c.state == Completed && Apart(c.h.acks, c.h.acks.Keys) {
      StepsBounded(c);
      WhoSize(c.h.acks, c.h.acks.Keys);
      SubsetSize(AckedSteps(c), Members(|defs|));
    }
  }

  /** The update of call `a` completes the running chain, with an exact counter. */
  ghost predicate FirstToComplete(c: Chain, a: nat) {
    && Enabled(c, Update(a, true)) && c.state == Running
    && var c' := Apply(c, Update(a, true)); c'.state == Completed && !c'.h.stale && c'.h.missed == 0
  }

  /** The update that completes a chain whose counter is exact does so when all steps were
      acknowledged, if and only if no step advanced the chain twice. */
  lemma CompletesTooSoon(defs: seq<Definition>, run: seq<Step>, a: nat)
    requires defs != [] && Legal(Create(defs), run)
    ensures FirstToComplete(Exec(Create(defs), run), a) ==>
              var c' := Apply(Exec(Create(defs), run), Update(a, true));
              Everyone(c') <==> Apart(c'.h.acks, c'.h.acks.Keys)
  {
    var c := Exec(Create(defs), run);
    if FirstToComplete(c, a) {
      Reached(defs, run);
      ExactAtEnd(c, a);
      var c' := Apply(c, Update(a, true));
      UpdateKeepsBacked(c, a, true);
      StepsBounded(c');
      WhoSize(c'.h.acks, c'.h.acks.Keys);
      SubsetSize(AckedSteps(c'), Members(|defs|));
    }
  }

  lemma ExactAtEnd(c: Chain, a: nat)
    requires Backed(c) && FirstToComplete(c, a)
    ensures var c' := Apply(c, Update(a, true)); |c'.h.acks| == |c.defs| == |c'.defs|
  {
    assert CallCounted(c, a, c.phases[a]);
    MoreAcks(c.h.acks, a, c.phases[a].k);
  }

  /** A second ending of the first of two steps, after the first one's call is over, stores
      `completed` while the second step has not ended. */
  lemma EndsTwiceCompletesEarly(defs: seq<Definition>) returns (run: seq<Step>)
    requires |defs| == 2
    ensures Legal(Create(defs), run)
    ensures var c := Exec(Create(defs), run); c.state == Completed && |c.pushed| == 2 && c.h.endings.Keys == {0}
  {
    var start := Create(defs);
    assert Walked(defs, start, 0);
    WalkOn(defs, start, 0);
    var c1 := Exec(start, Walk(0, 0));
    assert c1.pushed[0].step == 0 && c1.h.endings.Keys == {0};
    var e, tail := Begin(1, 0, Acked(""), true), [Store(1, true), Update(1, true)];
    TwoSteps(Apply(c1, e), Store(1, true), Update(1, true));
    Then(c1, e, tail);
    RunConcat(start, Walk(0, 0), [e] + tail);
    run := Walk(0, 0) + ([e] + tail);
  }

  // ---------- how often steps may end ----------

  /** The calls that have reported step `k` as acknowledged, or still may. */
  function Owing(c: Chain, k: nat): set<nat> {
    set a | a in c.phases
            && ((a in c.h.acks && c.h.acks[a] == k)
                || ((c.phases[a].Read? || c.phases[a].Stored?) && c.phases[a].k == k))
  }

  lemma OtherOwing(c: Chain, e: Step, k: nat, a: nat)
    requires Enabled(c, e) && c.h.acks.Keys <= c.phases.Keys && a in Owing(Apply(c, e), k)
    ensures a in Owing(c, k) || (e.Begin? && e.k == k && e.a == a)
  {}

  /** Only a new ending of the step adds a call. */
  lemma OneMoreOwing(c: Chain, e: Step, k: nat)
    requires Enabled(c, e) && c.h.acks.Keys <= c.phases.Keys
    ensures Apply(c, e).h.acks.Keys <= Apply(c, e).phases.Keys
    ensures Owing(Apply(c, e), k) <= Owing(c, k) + if e.Begin? && e.k == k then {e.a} else {}
  {
    var c' := Apply(c, e);
    forall a | a in Owing(c', k) ensures a in Owing(c, k) + if e.Begin? && e.k == k then {e.a} else {} {
      OtherOwing(c, e, k, a);
    }
  }

  lemma {:induction false} OwingBounded(c: Chain, run: seq<Step>, k: nat)
    requires Legal(c, run) && c.h.acks.Keys <= c.phases.Keys
    ensures |Owing(Exec(c, run), k)| <= |Owing(c, k)| + Begins(run, k)
    decreases |run|
  {
    if run != [] {
      var e, c' := run[0], Apply(c, run[0]);
      OneMoreOwing(c, e, k);
      SubsetSize(Owing(c', k), Owing(c, k) + if e.Begin? && e.k == k then {e.a} else {});
      OwingBounded(c', run[1..], k);
    }
  }

  /** A step that is not the last and ends at most once has at most one acknowledgement. */
  lemma OneAck(defs: seq<Definition>, ends: nat -> nat, run: seq<Step>, a: nat, b: nat)
    requires defs != [] && Legal(Create(defs), run) && Respects(run, ends)
    requires var acks := Exec(Create(defs), run).h.acks;
             a in acks && b in acks && acks[a] == acks[b] && ends(acks[a]) <= 1
    ensures a == b
  {
    Reached(defs, run);
    var c := Exec(Create(defs), run);
    var k := c.h.acks[a];
    assert Begins(run, k) <= ends(k);
    OwingBounded(Create(defs), run, k);
    assert Owing(Create(defs), k) == {};
    SubsetSize({a, b}, Owing(c, k));
  }

  lemma EarlierStep(defs: seq<Definition>, run: seq<Step>, a: nat)
    requires defs != [] && Legal(Create(defs), run)
    requires a in Exec(Create(defs), run).h.acks && |defs| - 1 !in AckedSteps(Exec(Create(defs), run))
    ensures Exec(Create(defs), run).h.acks[a] + 1 < |defs|
  {
    Reached(defs, run);
    var c := Exec(Create(defs), run);
    assert AckPushed(c, a) && c.h.acks[a] in AckedSteps(c);
  }

  lemma OnceCompletes(defs: seq<Definition>, ends: nat -> nat, run: seq<Step>)
    requires defs != [] && Legal(Create(defs), run) && Respects(run, ends)
    requires forall k: nat | k + 1 < |defs| :: ends(k) <= 1
    ensures Exec(Create(defs), run).state == Completed ==> Everyone(Exec(Create(defs), run))
  {
    var c := Exec(Create(defs), run);
    CompletedMeans(defs, run);
    if |defs| - 1 !in AckedSteps(c) {
      forall a, b | a in c.h.acks && b in c.h.acks && c.h.acks[a] == c.h.acks[b] ensures a == b {
        EarlierStep(defs, run, a);
        OneAck(defs, ends, run, a, b);
      }
    }
  }

  /** The step of the `n`-th call when step `k` has two calls, one after the other. */
  function Turn(n: nat, k: nat): nat {
    if n <= k then n else n - 1
  }

  /** `n` calls have been counted, one of them twice for step `k`, and none for the last step. */
  ghost predicate Ahead(defs: seq<Definition>, c: Chain, n: nat, k: nat) {
    && c.state == Running && c.completed == n && c.failed == 0 && c.defs == defs
    && HasStep(c.pushed, Turn(n, k))
    && (forall a | a in c.phases :: a < n)
    && (forall a | a in c.h.acks :: c.h.acks[a] + 1 < |defs|)
  }

  lemma AheadNext(defs: seq<Definition>, c: Chain, n: nat, k: nat)
    requires Ahead(defs, c, n, k) && n + 1 < |defs| && k + 1 < |defs|
    ensures Legal(c, Walk(n, Turn(n, k))) && Ahead(defs, Exec(c, Walk(n, Turn(n, k))), n + 1, k)
  {
    var s := Turn(n, k);
    var e := Begin(n, s, Acked(""), true);
    var c1 := Apply(c, e);
    RestPushes(c1, n, true, true, true);
    Then(c, e, Rest(n, true, true, true));
    var c' := Exec(c1, Rest(n, true, true, true));
    var job := c'.pushed[|c.pushed|];
    assert c'.pushed == c.pushed + [job] && job.step == s + 1;
    MoreHasStep(c.pushed, job, s);
    assert HasStep(c'.pushed, Turn(n + 1, k));
  }

  /** How many of the first `n` calls are for step `j`. */
  function Turns(n: nat, k: nat, j: nat): nat {
    (if j <= k && j < n then 1 else 0) + (if k <= j && j + 1 < n then 1 else 0)
  }

  lemma {:induction false} GoAhead(defs: seq<Definition>, n: nat, k: nat) returns (run: seq<Step>)
    requires n < |defs| && k + 1 < |defs|
    ensures Legal(Create(defs), run) && Ahead(defs, Exec(Create(defs), run), n, k)
    ensures forall j: nat :: Begins(run, j) == Turns(n, k, j)
    decreases n
  {
    run := [];
    if n > 0 {
      var m := n - 1;
      var before := GoAhead(defs, m, k);
      AheadNext(defs, Exec(Create(defs), before), m, k);
      RunConcat(Create(defs), before, Walk(m, Turn(m, k)));
      run := before + Walk(m, Turn(m, k));
      forall j: nat ensures Begins(run, j) == Turns(n, k, j) {
        BeginsConcat(before, Walk(m, Turn(m, k)), j);
        BeginsWalk(m, Turn(m, k), j);
      }
    } else {
      assert Create(defs).pushed[0].step == 0;
    }
  }

  /** A call up to its update. */
  function Half(a: nat, k: nat): seq<Step> {
    [Begin(a, k, Acked(""), true)] + [Store(a, true), Update(a, true)]
  }

  lemma BeginsHalf(a: nat, k: nat, j: nat)
    ensures Begins(Half(a, k), j) == if j == k then 1 else 0
  {
    var h := Half(a, k);
    assert h[1..] == [h[1], h[2]] && h[1..][1..] == [h[2]] && [h[2]][1..] == [];
    assert Begins([h[2]], j) == 0 && Begins([h[1], h[2]], j) == 0;
  }

  lemma HalfCompletes(defs: seq<Definition>, c: Chain, n: nat, k: nat)
    requires Ahead(defs, c, n, k) && n + 1 == |defs| && k < n
    ensures Legal(c, Half(n, Turn(n, k)))
    ensures var c' := Exec(c, Half(n, Turn(n, k))); c'.state == Completed && n !in AckedSteps(c')
  {
    var e := Begin(n, Turn(n, k), Acked(""), true);
    var c1 := Apply(c, e);
    AfterUpdate(c1, n, true, true);
    TwoSteps(c1, Store(n, true), Update(n, true));
    Then(c, e, [Store(n, true), Update(n, true)]);
  }

  lemma EndsTwiceCompletes(defs: seq<Definition>, ends: nat -> nat, k: nat) returns (run: seq<Step>)
    requires k + 1 < |defs| && ends(k) >= 2 && forall j: nat | j < |defs| :: ends(j) >= 1
    ensures Legal(Create(defs), run) && Respects(run, ends)
    ensures Exec(Create(defs), run).state == Completed && !Everyone(Exec(Create(defs), run))
  {
    var n := |defs| - 1;
    var before := GoAhead(defs, n, k);
    HalfCompletes(defs, Exec(Create(defs), before), n, k);
    RunConcat(Create(defs), before, Half(n, Turn(n, k)));
    run := before + Half(n, Turn(n, k));
    forall j: nat ensures Begins(run, j) <= ends(j) {
      BeginsConcat(before, Half(n, Turn(n, k)), j);
      BeginsHalf(n, Turn(n, k), j);
    }
    CompletedMeans(defs, run);
  }

  /** For a chain whose steps all end: in every run `completed` is stored only when all steps
      were acknowledged, if and only if no step but the last ends twice. */
  lemma CompletesIff(defs: seq<Definition>, ends: nat -> nat)
    requires defs != [] && forall j: nat | j < |defs| :: ends(j) >= 1
    ensures (forall run | Legal(Create(defs), run) && Respects(run, ends) ::
               Exec(Create(defs), run).state == Completed ==> Everyone(Exec(Create(defs), run))) <==>
            forall k: nat | k + 1 < |defs| :: ends(k) == 1
  {
    if forall k: nat | k + 1 < |defs| :: ends(k) == 1 {
      forall run | Legal(Create(defs), run) && Respects(run, ends)
        ensures Exec(Create(defs), run).state == Completed ==> Everyone(Exec(Create(defs), run))
      {
        OnceCompletes(defs, ends, run);
      }
    } else {
      var k: nat :| k + 1 < |defs| && ends(k) != 1;
      var run := EndsTwiceCompletes(defs, ends, k);
    }
  }
}
