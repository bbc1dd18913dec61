/** Chain workflows. */
module Chains {

  datatype ChainState = Running | Completed | Failed | Cancelled

  /** A step definition: type, arguments and options of its job. */
  type Definition(==, !new)

  /** A job pushed for a step, the results passed to it, and whether the RESULT rows
      could be read for it. */
  datatype Pushed = Pushed(step: nat, def: Definition, parents: seq<string>, loaded: bool)

  /** How the job of a step ended. */
  datatype Ending = Acked(result: string) | Discarded

  /** Where a call of AdvanceWorkflow or CancelWorkflow is. */
  datatype Phase =
    | Read(k: nat, ending: Ending, c: nat, f: nat)   // has read a running record
    | Stored(k: nat, ending: Ending, c: nat, f: nat) // has tried to store its result
    | Updated(k: nat)                                // has a next step to push
    | Loaded(k: nat, parents: seq<string>, loaded: bool)
    | Cancelling                                     // CancelWorkflow that has read a running record
    | Ended
  {
    /** AdvanceWorkflow, past its read. */
    predicate Live() {
      Read? || Stored? || Updated? || Loaded?
    }
  }

  /** What has happened: how steps ended (`endings`) and whether one ended twice, the results
      that could not be stored (`missing`), the step of the call behind every push
      (`advances`), the calls that reported an acknowledgement as far as their update, with
      their steps (`acks`), failed updates (`missed`), an update that replaced counters its
      call had not read (`stale`), a call that could not read, not push or stopped
      (`lost`), the early return, a stored cancellation, and the number of stored updates
      and pushes (`effects`). */
  datatype History = History(
    endings: map<nat, Ending>,
    twice: bool,
    missing: set<nat>,
    advances: seq<nat>,
    acks: map<nat, nat>,
    missed: nat,
    stale: bool,
    lost: bool,
    early: bool,
    cancelled: bool,
    effects: nat)

  /** The workflow record, its RESULT rows, the jobs pushed for it and the calls. */
  datatype Chain = Chain(
    defs: seq<Definition>,
    state: ChainState,
    completed: nat,
    failed: nat,
    results: map<nat, string>,
    pushed: seq<Pushed>,
    phases: map<nat, Phase>,
    h: History)

  /** Stored results of the steps below `k`, in step order. */
  function Parents(results: map<nat, string>, k: nat): seq<string> {
    if k == 0 then []
    else Parents(results, k - 1) + (if k - 1 in results then [results[k - 1]] else [])
  }

  function Create(defs: seq<Definition>): Chain
    requires defs != []
  {
    Chain(defs, Running, 0, 0, map[], [Pushed(0, defs[0], [], true)], map[],
          History(map[], false, {}, [], map[], 0, false, false, false, false, 0))
  }

  ghost predicate HasStep(pushed: seq<Pushed>, k: nat) {
    exists i :: 0 <= i < |pushed| && pushed[i].step == k
  }

  /** The next step is pushed when the previous one is acknowledged, with the results of the
      steps before it. Calls of AdvanceWorkflow and CancelWorkflow interleave store call by
      store call, may fail or stop, and a step may end more than once (see module Endings). */
  datatype Step =
    | Begin(a: nat, k: nat, ending: Ending, ok: bool)
    | Store(a: nat, ok: bool)
    | Update(a: nat, ok: bool)
    | Load(a: nat, ok: bool)
    | Push(a: nat, ok: bool)
    | Stop(a: nat)
    | CancelRead(a: nat, ok: bool)
    | CancelWrite(a: nat, ok: bool)

  /** A step that was pushed may end at any time; the other events follow the code. */
  ghost predicate Enabled(c: Chain, e: Step) {
    match e
    case Begin(a, k, _, _) => a !in c.phases && HasStep(c.pushed, k)
    case Store(a, _) => a in c.phases && c.phases[a].Read?
    case Update(a, _) => a in c.phases && c.phases[a].Stored?
    case Load(a, _) => a in c.phases && c.phases[a].Updated? && c.phases[a].k + 1 < |c.defs|
    case Push(a, _) => a in c.phases && c.phases[a].Loaded? && c.phases[a].k + 1 < |c.defs|
    case Stop(a) => a in c.phases
    case CancelRead(a, _) => a !in c.phases
    case CancelWrite(a, _) => a in c.phases && c.phases[a].Cancelling?
  }

  function Result(ending: Ending): string {
    if ending.Acked? then ending.result else ""
  }

  /** The chain goes on after this ending, by the counters read before. */
  predicate GoesOn(c: Chain, p: Phase)
    requires p.Stored?
  {
    p.ending.Acked? && p.c + 1 + p.f < |c.defs|
  }

  /** The state a stored update leaves. */
  function NextState(c: Chain, p: Phase): ChainState
    requires p.Stored?
  {
    if p.ending.Discarded? then Failed else if GoesOn(c, p) then c.state else Completed
  }

  ghost function Apply(c: Chain, e: Step): Chain
    requires Enabled(c, e)
  {
    match e
    case Begin(a, k, ending, ok) =>
      var p := if ok && c.state == Running then Read(k, ending, c.completed, c.failed) else Ended;
      c.(phases := c.phases[a := p],
         h := c.h.(endings := c.h.endings[k := ending], twice := c.h.twice || k in c.h.endings,
                   lost := c.h.lost || (!ok && c.state == Running)))
    case Store(a, ok) =>
      var p := c.phases[a];
      var r := Result(p.ending);
      c.(phases := c.phases[a := Stored(p.k, p.ending, p.c, p.f)],
         results := if r != "" && ok then c.results[p.k := r] else c.results,
         h := c.h.(missing := if r != "" && !ok then c.h.missing + {p.k} else c.h.missing))
    case Update(a, ok) =>
      var p := c.phases[a];
      var on, more := GoesOn(c, p), p.k + 1 < |c.defs|;
      c.(phases := c.phases[a := if on && more then Updated(p.k) else Ended],
         state := if ok then NextState(c, p) else c.state,
         completed := if !ok then c.completed else if p.ending.Acked? then p.c + 1 else p.c,
         failed := if !ok then c.failed else if p.ending.Acked? then p.f else p.f + 1,
         h := c.h.(acks := if p.ending.Acked? then c.h.acks[a := p.k] else c.h.acks,
                   missed := if ok then c.h.missed else c.h.missed + 1,
                   stale := c.h.stale || (ok && (p.c != c.completed || p.f != c.failed)),
                   effects := if ok then c.h.effects + 1 else c.h.effects,
                   early := c.h.early || (on && !more)))
    case Load(a, ok) =>
      var k := c.phases[a].k;
      c.(phases := c.phases[a := Loaded(k, if ok then Parents(c.results, k + 1) else [], ok)])
    case Push(a, ok) =>
      var p := c.phases[a];
      var job := Pushed(p.k + 1, c.defs[p.k + 1], p.parents, p.loaded);
      c.(phases := c.phases[a := Ended],
         pushed := if ok then c.pushed + [job] else c.pushed,
         h := c.h.(advances := if ok then c.h.advances + [p.k] else c.h.advances,
                   effects := if ok then c.h.effects + 1 else c.h.effects,
                   lost := c.h.lost || !ok))
    case Stop(a) => c.(phases := c.phases[a := Ended], h := c.h.(lost := c.h.lost || c.phases[a].Live()))
    case CancelRead(a, ok) => c.(phases := c.phases[a := if ok && c.state == Running then Cancelling else Ended])
    case CancelWrite(a, ok) =>
      c.(phases := c.phases[a := Ended], state := if ok then Cancelled else c.state,
         h := c.h.(cancelled := c.h.cancelled || ok))
  }

  ghost predicate Legal(c: Chain, run: seq<Step>)
    decreases |run|
  {
    run == [] || (Enabled(c, run[0]) && Legal(Apply(c, run[0]), run[1..]))
  }

  ghost function Exec(c: Chain, run: seq<Step>): Chain
    requires Legal(c, run)
    decreases |run|
  {
    if run == [] then c else Exec(Apply(c, run[0]), run[1..])
  }

  lemma Then(c: Chain, e: Step, run: seq<Step>)
    requires Enabled(c, e) && Legal(Apply(c, e), run)
    ensures Legal(c, [e] + run) && Exec(c, [e] + run) == Exec(Apply(c, e), run)
  {
    assert ([e] + run)[1..] == run;
  }

  lemma {:induction false} RunConcat(c: Chain, a: seq<Step>, b: seq<Step>)
    requires Legal(c, a) && Legal(Exec(c, a), b)
    ensures Legal(c, a + b) && Exec(c, a + b) == Exec(Exec(c, a), b)
    decreases |a|
  {
    if a == [] {
      assert a + b == b;
    } else {
      assert (a + b)[0] == a[0] && (a + b)[1..] == a[1..] + b;
      RunConcat(Apply(c, a[0]), a[1..], b);
    }
  }

  // ---------- the order of steps ----------

  ghost predicate InOrder(c: Chain) {
    forall i | 0 <= i < |c.pushed| :: c.pushed[i].step == i
  }

  /** No two calls for the same step have pushed. */
  ghost predicate AdvancedOnce(c: Chain) {
    forall i, j | 0 <= i < j < |c.h.advances| :: c.h.advances[i] != c.h.advances[j]
  }

  /** The `i`-th push after the first was made by a call for a step pushed before. */
  ghost predicate Follows(c: Chain, i: nat)
    requires i < |c.h.advances| && |c.pushed| == |c.h.advances| + 1
  {
    c.pushed[i + 1].step == c.h.advances[i] + 1 && HasStep(c.pushed[..i + 1], c.h.advances[i])
  }

  /** What holds of the pushed jobs and the calls in every run. */
  ghost predicate Traced(c: Chain) {
    TracedJobs(c) && forall a | a in c.phases :: TracedCall(c, c.phases[a])
  }

  ghost predicate TracedJobs(c: Chain) {
    && |c.pushed| == |c.h.advances| + 1 && c.pushed[0].step == 0
    && (forall i: nat | i < |c.pushed| :: c.pushed[i].step < |c.defs| && c.pushed[i].def == c.defs[c.pushed[i].step])
    && (forall i: nat | i < |c.h.advances| :: Follows(c, i))
  }

  ghost predicate TracedCall(c: Chain, p: Phase) {
    p.Live() ==> HasStep(c.pushed, p.k) && (p.Updated? || p.Loaded? ==> p.k + 1 < |c.defs|)
  }

  /** Only a push changes the jobs. */
  lemma SameJobs(c: Chain, e: Step)
    requires Enabled(c, e) && !(e.Push? && e.ok)
    ensures var c' := Apply(c, e); c'.pushed == c.pushed && c'.h.advances == c.h.advances && c'.defs == c.defs
  {}

  /** A call keeps its step. */
  lemma SameStep(c: Chain, e: Step, b: nat)
    requires Enabled(c, e) && b in Apply(c, e).phases && Apply(c, e).phases[b].Live()
    ensures var p := Apply(c, e).phases[b];
            || (b in c.phases && c.phases[b].Live() && c.phases[b].k == p.k
                && ((p.Updated? || p.Loaded?) && !(c.phases[b].Updated? || c.phases[b].Loaded?) ==> p.k + 1 < |c.defs|))
            || (e.Begin? && e.a == b && b !in c.phases && p.k == e.k && p.Read?)
  {}

  lemma MoreHasStep(pushed: seq<Pushed>, x: Pushed, k: nat)
    requires HasStep(pushed, k)
    ensures HasStep(pushed + [x], k)
  {
    var i :| 0 <= i < |pushed| && pushed[i].step == k;
    assert (pushed + [x])[i].step == k;
  }

  lemma PushKeepsTraced(c: Chain, a: nat)
    requires Traced(c) && Enabled(c, Push(a, true))
    ensures Traced(Apply(c, Push(a, true)))
  {
    var c' := Apply(c, Push(a, true));
    var n := |c.h.advances|;
    forall i: nat | i < |c'.h.advances| ensures Follows(c', i) {
      if i < n {
        assert Follows(c, i) && c'.pushed[..i + 1] == c.pushed[..i + 1];
      } else {
        assert c'.pushed[..i + 1] == c.pushed;
      }
    }
    forall b | b in c'.phases ensures TracedCall(c', c'.phases[b]) {
      assert b in c.phases && TracedCall(c, c.phases[b]);
      if c'.phases[b].Live() { MoreHasStep(c.pushed, c'.pushed[n + 1], c.phases[b].k); }
    }
  }

  lemma KeepsTraced(c: Chain, e: Step)
    requires Traced(c) && Enabled(c, e)
    ensures Traced(Apply(c, e))
  {
    if e.Push? && e.ok {
      PushKeepsTraced(c, e.a);
    } else {
      OtherKeepsTraced(c, e);
    }
  }

  lemma OtherKeepsTraced(c: Chain, e: Step)
    requires Traced(c) && Enabled(c, e) && !(e.Push? && e.ok)
    ensures Traced(Apply(c, e))
  {
    var c' := Apply(c, e);
    SameJobs(c, e);
    forall i: nat | i < |c'.h.advances| ensures Follows(c', i) { assert Follows(c, i); }
    forall b | b in c'.phases ensures TracedCall(c', c'.phases[b]) {
      if c'.phases[b].Live() {
        SameStep(c, e, b);
        if b in c.phases { assert TracedCall(c, c.phases[b]); }
      }
    }
  }

  lemma {:induction false} RunTraced(c: Chain, run: seq<Step>)
    requires Traced(c) && Legal(c, run)
    ensures Traced(Exec(c, run)) && Exec(c, run).defs == c.defs
    decreases |run|
  {
    if run != [] {
      KeepsTraced(c, run[0]);
      if !(run[0].Push? && run[0].ok) { SameJobs(c, run[0]); }
      RunTraced(Apply(c, run[0]), run[1..]);
    }
  }

  lemma {:induction false} InOrderUpTo(c: Chain, n: nat)
    requires Traced(c) && AdvancedOnce(c) && n < |c.pushed|
    ensures c.pushed[n].step == n
    decreases n
  {
    if n > 0 {
      assert Follows(c, n - 1);
      var k := c.h.advances[n - 1];
      var j :| 0 <= j < n && c.pushed[..n][j].step == k;
      InOrderUpTo(c, j);
      InOrderUpTo(c, if k < n then k else 0);
      assert k < n - 1 ==> Follows(c, k);
      if k < n - 1 { InOrderUpTo(c, k + 1); }
    }
  }

  /** In every run, whatever fails, interleaves or ends again: the pushed jobs are steps
      0, 1, 2, ... in order if and only if no step's call pushed twice. */
  lemma StepsInOrder(defs: seq<Definition>, run: seq<Step>)
    requires defs != [] && Legal(Create(defs), run)
    ensures var c := Exec(Create(defs), run);
            && (InOrder(c) <==> AdvancedOnce(c))
            && (forall i: nat | i < |c.pushed| ::
                  c.pushed[i].step < |defs| && c.pushed[i].def == defs[c.pushed[i].step])
  {
    RunTraced(Create(defs), run);
    var c := Exec(Create(defs), run);
    if AdvancedOnce(c) {
      forall i: nat | i < |c.pushed| ensures c.pushed[i].step == i { InOrderUpTo(c, i); }
    }
    if InOrder(c) {
      forall i: nat | i < |c.h.advances| ensures c.h.advances[i] == i { assert Follows(c, i); }
    }
  }

  // ---------- runs in which no step ends twice ----------

  function Last(c: Chain): int {
    |c.pushed| - 1
  }

  /** A call past its read is for the last step, whose ending it reports. */
  ghost predicate CallOk(c: Chain, p: Phase) {
    p.Live() ==>
      && p.k == Last(c) && p.k in c.h.endings
      && match p
         case Read(_, ending, _, _) => c.h.endings[p.k] == ending
         case Stored(_, ending, _, _) => c.h.endings[p.k] == ending
         case _ => c.h.endings[p.k].Acked? && p.k + 1 < |c.defs|
  }

  ghost predicate OneLive(c: Chain) {
    forall a, b | a in c.phases && b in c.phases && c.phases[a].Live() && c.phases[b].Live() :: a == b
  }

  ghost predicate NoneLive(c: Chain) {
    forall a | a in c.phases :: !c.phases[a].Live()
  }

  /** All steps but the last pushed one were acknowledged. */
  ghost predicate EarlierAcked(c: Chain) {
    && (forall k | k in c.h.endings :: k < |c.pushed|)
    && (forall k: nat | k < |c.pushed| - 1 :: k in c.h.endings && c.h.endings[k].Acked?)
  }

  ghost predicate Serial(c: Chain) {
    && 1 <= |c.pushed| <= |c.defs| && InOrder(c) && EarlierAcked(c) && OneLive(c)
    && forall a | a in c.phases :: CallOk(c, c.phases[a])
  }

  lemma RestKeepsSerial(c: Chain, e: Step)
    requires Serial(c) && Enabled(c, e) && !e.Begin? && !(e.Push? && e.ok)
    ensures Serial(Apply(c, e)) && Apply(c, e).h.endings == c.h.endings
  {
    var c' := Apply(c, e);
    SameJobs(c, e);
    assert c'.h.endings == c.h.endings;
    forall b | b in c'.phases ensures CallOk(c', c'.phases[b]) {
      if b in c.phases { assert CallOk(c, c.phases[b]); }
    }
    forall a, b | a in c'.phases && b in c'.phases && c'.phases[a].Live() && c'.phases[b].Live() ensures a == b {
      SameStep(c, e, a);
      SameStep(c, e, b);
    }
  }

  lemma KeepsSerial(c: Chain, e: Step)
    requires Serial(c) && Enabled(c, e) && !Apply(c, e).h.twice
    ensures Serial(Apply(c, e))
  {
    if !e.Begin? && !(e.Push? && e.ok) { RestKeepsSerial(c, e); }
  }

  // ---------- results ----------

  /** The non-empty results of the steps below `k`, by how their jobs ended. */
  function Passed(endings: map<nat, Ending>, k: nat): seq<string> {
    if k == 0 then []
    else Passed(endings, k - 1)
         + (if k - 1 in endings && Result(endings[k - 1]) != "" then [Result(endings[k - 1])] else [])
  }

  /** The result of step `k` is stored, or it is missing. */
  ghost predicate Accounted(c: Chain, k: nat) {
    k in c.h.endings && Result(c.h.endings[k]) != "" ==> (k in c.results <==> k !in c.h.missing)
  }

  /** Nothing else is stored or missing. */
  ghost predicate NoOther(c: Chain) {
    && (forall k | k in c.results :: k in c.h.endings && Result(c.h.endings[k]) == c.results[k] && c.results[k] != "")
    && (forall k | k in c.h.missing :: k in c.h.endings && Result(c.h.endings[k]) != "" && k !in c.results)
  }

  /** What a job is given: the stored results below its step, if they could be read. */
  ghost predicate GivenOk(results: map<nat, string>, parents: seq<string>, loaded: bool, k: nat) {
    parents == if loaded then Parents(results, k) else []
  }

  ghost predicate ResultCall(c: Chain, p: Phase) {
    match p
    case Read(k, _, _, _) => k !in c.results && k !in c.h.missing
    case Stored(k, _, _, _) => Accounted(c, k)
    case Updated(k) => Accounted(c, k)
    case Loaded(k, parents, loaded) => Accounted(c, k) && GivenOk(c.results, parents, loaded, k + 1)
    case _ => true
  }

  ghost predicate Kept(c: Chain) {
    && NoOther(c)
    && (forall k: nat | k < |c.pushed| - 1 :: Accounted(c, k))
    && (forall i: nat | i < |c.pushed| :: GivenOk(c.results, c.pushed[i].parents, c.pushed[i].loaded, i))
    && (forall a | a in c.phases :: ResultCall(c, c.phases[a]))
  }

  lemma {:induction false} ParentsStable(results: map<nat, string>, k: nat, j: nat, r: string)
    requires j >= k
    ensures Parents(results[j := r], k) == Parents(results, k)
  {
    if k > 0 { ParentsStable(results, k - 1, j, r); }
  }

  lemma BeginKeepsKept(c: Chain, e: Step)
    requires Serial(c) && Kept(c) && Enabled(c, e) && e.Begin? && e.k !in c.h.endings
    ensures Kept(Apply(c, e))
  {
    var c' := Apply(c, e);
    forall k: nat | k < |c'.pushed| - 1 ensures Accounted(c', k) { assert Accounted(c, k); }
    forall a | a in c'.phases ensures ResultCall(c', c'.phases[a]) {
      if a != e.a { assert ResultCall(c, c.phases[a]); }
    }
  }

  lemma StoreKeepsKept(c: Chain, a: nat, ok: bool)
    requires Serial(c) && Kept(c) && Enabled(c, Store(a, ok))
    ensures Kept(Apply(c, Store(a, ok)))
  {
    var c' := Apply(c, Store(a, ok));
    var k := c.phases[a].k;
    assert CallOk(c, c.phases[a]) && ResultCall(c, c.phases[a]);
    forall j: nat | j < |c'.pushed| - 1 ensures Accounted(c', j) { assert Accounted(c, j); }
    forall i: nat | i < |c'.pushed|
      ensures GivenOk(c'.results, c'.pushed[i].parents, c'.pushed[i].loaded, i)
    {
      assert GivenOk(c.results, c.pushed[i].parents, c.pushed[i].loaded, i);
      ParentsStable(c.results, i, k, Result(c.phases[a].ending));
    }
    forall b | b in c'.phases ensures ResultCall(c', c'.phases[b]) {
      if b != a { assert !c.phases[b].Live(); }
    }
  }

  lemma PushKeepsKept(c: Chain, a: nat)
    requires Serial(c) && Kept(c) && Enabled(c, Push(a, true))
    ensures Kept(Apply(c, Push(a, true)))
  {
    var c' := Apply(c, Push(a, true));
    assert CallOk(c, c.phases[a]) && ResultCall(c, c.phases[a]);
    forall j: nat | j < |c'.pushed| - 1 ensures Accounted(c', j) {
      if j < |c.pushed| - 1 { assert Accounted(c, j); }
    }
    forall i: nat | i < |c'.pushed|
      ensures GivenOk(c'.results, c'.pushed[i].parents, c'.pushed[i].loaded, i)
    {
      if i < |c.pushed| { assert GivenOk(c.results, c.pushed[i].parents, c.pushed[i].loaded, i); }
    }
    forall b | b in c'.phases ensures ResultCall(c', c'.phases[b]) {
      if b != a { assert !c.phases[b].Live(); }
    }
  }

  /** Only an ending and a store change the results; only a push changes the jobs. */
  lemma RestKeepsKept(c: Chain, e: Step)
    requires Serial(c) && Kept(c) && Enabled(c, e) && !e.Begin? && !e.Store? && !(e.Push? && e.ok)
    ensures Kept(Apply(c, e))
  {
    var c' := Apply(c, e);
    SameJobs(c, e);
    assert c'.results == c.results && c'.h.missing == c.h.missing && c'.h.endings == c.h.endings;
    forall j: nat | j < |c'.pushed| - 1 ensures Accounted(c', j) { assert Accounted(c, j); }
    forall i: nat | i < |c'.pushed|
      ensures GivenOk(c'.results, c'.pushed[i].parents, c'.pushed[i].loaded, i)
    {
      assert GivenOk(c.results, c.pushed[i].parents, c.pushed[i].loaded, i);
    }
    forall b | b in c'.phases ensures ResultCall(c', c'.phases[b]) {
      if b in c.phases { assert ResultCall(c, c.phases[b]); }
    }
  }

  lemma KeepsKept(c: Chain, e: Step)
    requires Serial(c) && Kept(c) && Enabled(c, e) && !Apply(c, e).h.twice
    ensures Kept(Apply(c, e))
  {
    if e.Begin? {
      BeginKeepsKept(c, e);
    } else if e.Store? {
      StoreKeepsKept(c, e.a, e.ok);
    } else if e.Push? && e.ok {
      PushKeepsKept(c, e.a);
    } else {
      RestKeepsKept(c, e);
    }
  }

  // ---------- counters and states ----------

  ghost predicate CountCall(c: Chain, p: Phase) {
    p.Live() ==>
      && c.failed == 0 && !c.h.lost && (!c.h.cancelled ==> c.state == Running)
      && match p
         case Read(_, _, n, f) => n == c.completed && f == 0 && c.completed + c.h.missed == Last(c)
         case Stored(_, _, n, f) => n == c.completed && f == 0 && c.completed + c.h.missed == Last(c)
         case _ => c.completed + c.h.missed == Last(c) + 1
  }

  /** Before the last step ends, the counter is short by the failed updates; afterwards
      the workflow is over or has come to a halt because of a failing call. */
  ghost predicate Fits(c: Chain) {
    && (c.h.early ==> c.h.missed > 0)
    && (forall a | a in c.phases :: CountCall(c, c.phases[a]))
    && (Last(c) >= 0 && Last(c) !in c.h.endings ==>
          c.failed == 0 && !c.h.lost && (!c.h.cancelled ==> c.state == Running) && c.completed + c.h.missed == Last(c))
    && (NoneLive(c) && Last(c) >= 0 && Last(c) in c.h.endings && !c.h.cancelled ==> Halted(c))
  }

  ghost predicate Halted(c: Chain)
    requires Last(c) >= 0 && Last(c) in c.h.endings
  {
    match c.state
    case Running => c.h.missed > 0 || c.h.lost
    case Completed =>
      && c.h.missed == 0 && !c.h.lost && |c.pushed| == |c.defs| && c.h.endings[Last(c)].Acked?
      && c.completed == |c.defs| && c.failed == 0
    case Failed => c.h.endings[Last(c)].Discarded? && c.failed == 1
    case Cancelled => false
  }

  lemma BeginKeepsFits(c: Chain, e: Step)
    requires Serial(c) && Fits(c) && Enabled(c, e) && e.Begin? && e.k !in c.h.endings
    ensures Fits(Apply(c, e))
  {
    var c' := Apply(c, e);
    assert c'.phases[e.a].Live() ==> !NoneLive(c');
  }

  lemma UpdateKeepsFits(c: Chain, a: nat, ok: bool)
    requires Serial(c) && Fits(c) && Enabled(c, Update(a, ok))
    ensures Fits(Apply(c, Update(a, ok)))
  {
    var c' := Apply(c, Update(a, ok));
    assert CallOk(c, c.phases[a]) && CountCall(c, c.phases[a]);
    forall b | b in c'.phases ensures CountCall(c', c'.phases[b]) {
      if b != a { assert !c.phases[b].Live(); }
    }
    assert c'.phases[a].Live() ==> !NoneLive(c');
  }

  lemma StoreOrLoadKeepsFits(c: Chain, e: Step)
    requires Serial(c) && Fits(c) && Enabled(c, e) && (e.Store? || e.Load?)
    ensures Fits(Apply(c, e))
  {
    var c' := Apply(c, e);
    assert CallOk(c, c.phases[e.a]) && CountCall(c, c.phases[e.a]);
    forall b | b in c'.phases ensures CountCall(c', c'.phases[b]) {
      if b != e.a { assert !c.phases[b].Live(); }
    }
    assert c'.phases[e.a].Live() && !NoneLive(c');
  }

  lemma StopKeepsFits(c: Chain, a: nat)
    requires Serial(c) && Fits(c) && Enabled(c, Stop(a))
    ensures Fits(Apply(c, Stop(a)))
  {
    var c' := Apply(c, Stop(a));
    assert CallOk(c, c.phases[a]) && CountCall(c, c.phases[a]);
    if c.phases[a].Live() {
      forall b | b in c'.phases ensures CountCall(c', c'.phases[b]) {
        if b != a { assert !c.phases[b].Live(); }
      }
    } else {
      forall b | b in c'.phases ensures CountCall(c', c'.phases[b]) { assert CountCall(c, c.phases[b]); }
      assert NoneLive(c') ==> NoneLive(c) by {
        if NoneLive(c') {
          forall b | b in c.phases ensures !c.phases[b].Live() { assert b != a ==> c'.phases[b] == c.phases[b]; }
        }
      }
    }
  }

  lemma CancelKeepsFits(c: Chain, e: Step)
    requires Serial(c) && Fits(c) && Enabled(c, e) && (e.CancelRead? || e.CancelWrite?)
    ensures Fits(Apply(c, e))
  {
    var c' := Apply(c, e);
    forall b | b in c'.phases ensures CountCall(c', c'.phases[b]) {
      if b != e.a { assert CountCall(c, c.phases[b]); }
    }
    if NoneLive(c') {
      forall b | b in c.phases ensures !c.phases[b].Live() { assert b != e.a ==> c'.phases[b] == c.phases[b]; }
    }
  }

  lemma KeepsFits(c: Chain, e: Step)
    requires Serial(c) && Fits(c) && Enabled(c, e) && !Apply(c, e).h.twice
    ensures Fits(Apply(c, e))
  {
    match e
    case Begin(_, _, _, _) => BeginKeepsFits(c, e);
    case Store(_, _) => StoreOrLoadKeepsFits(c, e);
    case Update(a, ok) => UpdateKeepsFits(c, a, ok);
    case Load(_, _) => StoreOrLoadKeepsFits(c, e);
    case Push(_, _) =>
    case Stop(a) => StopKeepsFits(c, a);
    case _ => CancelKeepsFits(c, e);
  }

  lemma {:induction false} TwiceStays(c: Chain, run: seq<Step>)
    requires Legal(c, run) && c.h.twice
    ensures Exec(c, run).h.twice
    decreases |run|
  {
    if run != [] { TwiceStays(Apply(c, run[0]), run[1..]); }
  }

  lemma {:induction false} RunSerial(c: Chain, run: seq<Step>)
    requires Serial(c) && Kept(c) && Fits(c) && Legal(c, run) && !Exec(c, run).h.twice
    ensures var c' := Exec(c, run); Serial(c') && Kept(c') && Fits(c')
    decreases |run|
  {
    if run != [] {
      var e, c1 := run[0], Apply(c, run[0]);
      if c1.h.twice { TwiceStays(c1, run[1..]); }
      KeepsSerial(c, e);
      KeepsKept(c, e);
      KeepsFits(c, e);
      RunSerial(c1, run[1..]);
    }
  }

  ghost predicate AllAcked(c: Chain) {
    forall k: nat | k < |c.defs| :: k in c.h.endings && c.h.endings[k].Acked?
  }

  /** In every run in which no step ends twice, whichever calls fail or stop and however
      they interleave with cancellation: steps are pushed in order, each after all
      earlier ones were acknowledged, and the early return is taken only after a failed
      update. Without a cancellation: while the last pushed step has not ended, exactly
      completed + 1 steps have been pushed if and only if no update failed; when all
      steps were acknowledged and the calls have ended, the workflow is completed if and
      only if no update, read or push failed and no call stopped; and when the last pushed
      step was discarded instead, the workflow has failed, unless there was such a failure,
      and has counted one failure. */
  lemma ChainOutcome(defs: seq<Definition>, run: seq<Step>)
    requires defs != [] && Legal(Create(defs), run) && !Exec(Create(defs), run).h.twice
    ensures var c := Exec(Create(defs), run);
            && InOrder(c) && EarlierAcked(c) && (c.h.early ==> c.h.missed > 0)
            && (!c.h.cancelled && Last(c) !in c.h.endings ==>
                  c.state == Running && (|c.pushed| == c.completed + 1 <==> c.h.missed == 0))
            && (!c.h.cancelled && AllAcked(c) && NoneLive(c) ==>
                  (c.state == Completed <==> c.h.missed == 0 && !c.h.lost))
            && (!c.h.cancelled && NoneLive(c) && Last(c) in c.h.endings ==>
                  && (c.state == Completed ==> AllAcked(c) && c.completed == |defs| && c.failed == 0)
                  && (c.state == Failed ==> c.h.endings[Last(c)].Discarded? && c.failed == 1)
                  && (c.h.endings[Last(c)].Discarded? && c.h.missed == 0 && !c.h.lost ==> c.state == Failed))
  {
    RunSerial(Create(defs), run);
    RunTraced(Create(defs), run);
  }

  /** Fewer results are stored than the steps ended with, by those that are missing. */
  lemma {:induction false} MissingShows(c: Chain, k: nat)
    requires NoOther(c) && (forall j: nat | j < k :: Accounted(c, j))
    ensures |Parents(c.results, k)| <= |Passed(c.h.endings, k)|
    ensures (forall j: nat | j < k :: j !in c.h.missing) ==> Parents(c.results, k) == Passed(c.h.endings, k)
    ensures (exists j: nat :: j < k && j in c.h.missing) ==> |Parents(c.results, k)| < |Passed(c.h.endings, k)|
  {
    if k > 0 {
      MissingShows(c, k - 1);
      assert Accounted(c, k - 1);
    }
  }

  /** In every run in which no step ends twice: a job is given exactly the non-empty
      results of the steps below it, in order, if and only if there are none or the
      RESULT rows could be read for it and none of those results could not be stored. */
  lemma ParentsRight(defs: seq<Definition>, run: seq<Step>, i: nat)
    requires defs != [] && Legal(Create(defs), run) && !Exec(Create(defs), run).h.twice
    requires i < |Exec(Create(defs), run).pushed|
    ensures var c := Exec(Create(defs), run);
            c.pushed[i].parents == Passed(c.h.endings, i) <==>
              Passed(c.h.endings, i) == [] || (c.pushed[i].loaded && forall j: nat | j < i :: j !in c.h.missing)
  {
    RunSerial(Create(defs), run);
    var c := Exec(Create(defs), run);
    assert GivenOk(c.results, c.pushed[i].parents, c.pushed[i].loaded, i);
    forall j: nat | j < i ensures Accounted(c, j) {}
    MissingShows(c, i);
  }

  // ---------- cancellation ----------

  lemma FrozenStep(c: Chain, e: Step)
    requires c.state != Running && NoneLive(c) && Enabled(c, e)
    ensures var c' := Apply(c, e);
            && c'.h.effects == c.h.effects && c'.pushed == c.pushed && c'.results == c.results
            && c'.completed == c.completed && c'.failed == c.failed && c'.state in {c.state, Cancelled}
            && NoneLive(c')
  {}

  /** A call that has ended or only cancels changes nothing once the workflow has stopped
      running, except that a late cancellation still stores its state. */
  lemma {:induction false} Frozen(c: Chain, run: seq<Step>)
    requires c.state != Running && NoneLive(c) && Legal(c, run)
    ensures var c' := Exec(c, run);
            && c'.h.effects == c.h.effects && c'.pushed == c.pushed && c'.results == c.results
            && c'.completed == c.completed && c'.failed == c.failed && c'.state in {c.state, Cancelled}
    decreases |run|
  {
    if run != [] {
      FrozenStep(c, run[0]);
      Frozen(Apply(c, run[0]), run[1..]);
    }
  }

  lemma TwoSteps(c: Chain, e: Step, e': Step)
    requires Enabled(c, e) && Enabled(Apply(c, e), e')
    ensures Legal(c, [e, e']) && Exec(c, [e, e']) == Apply(Apply(c, e), e')
    ensures Legal(c, [e]) && Exec(c, [e]) == Apply(c, e)
  {
    Then(Apply(c, e), e', []);
    Then(c, e, [e']);
    Then(c, e, []);
    assert [e'] + [] == [e'] && [e] + [e'] == [e, e'] && [e] + [] == [e];
  }

  /** A call past its read can still store an update or push a job. */
  lemma LiveActs(c: Chain, a: nat) returns (run: seq<Step>)
    requires a in c.phases && c.phases[a].Live() && TracedCall(c, c.phases[a])
    ensures Legal(c, run) && Exec(c, run).h.effects > c.h.effects
  {
    match c.phases[a]
    case Read(_, _, _, _) =>
      run := [Store(a, true), Update(a, true)];
      TwoSteps(c, Store(a, true), Update(a, true));
    case Stored(_, _, _, _) =>
      run := [Update(a, true)];
      TwoSteps(c, Update(a, true), Stop(a));
    case Updated(_) =>
      run := [Load(a, true), Push(a, true)];
      TwoSteps(c, Load(a, true), Push(a, true));
    case Loaded(_, _, _) =>
      run := [Push(a, true)];
      TwoSteps(c, Push(a, true), Stop(a));
  }

  /** Once a workflow has been cancelled (or has failed or completed), no run stores an
      update of AdvanceWorkflow or pushes a step, if and only if no call of it is past
      its read at that moment. */
  lemma CancelStops(defs: seq<Definition>, before: seq<Step>)
    requires defs != [] && Legal(Create(defs), before) && Exec(Create(defs), before).state != Running
    ensures var c := Exec(Create(defs), before);
            (forall run | Legal(c, run) :: Exec(c, run).h.effects == c.h.effects) <==> NoneLive(c)
  {
    RunTraced(Create(defs), before);
    var c := Exec(Create(defs), before);
    if NoneLive(c) {
      forall run | Legal(c, run) ensures Exec(c, run).h.effects == c.h.effects { Frozen(c, run); }
    } else {
      var a :| a in c.phases && c.phases[a].Live();
      var run := LiveActs(c, a);
    }
  }
}
