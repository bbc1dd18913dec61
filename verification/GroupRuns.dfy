/** Runs of group and batch workflows. */
module GroupRuns {
  import opened Counting
  import opened Groups

  // ---------- what goes wrong ----------

  lemma Then(g: Group, e: Step, run: seq<Step>)
    requires Enabled(g, e) && Legal(Apply(g, e), run)
    ensures Legal(g, [e] + run) && Exec(g, [e] + run) == Exec(Apply(g, e), run)
  {
    assert ([e] + run)[1..] == run;
  }

  lemma FourSteps(g: Group, a: Step, b: Step, c: Step, d: Step)
    requires Enabled(g, a) && Enabled(Apply(g, a), b) && Enabled(Apply(Apply(g, a), b), c)
    requires Enabled(Apply(Apply(Apply(g, a), b), c), d)
    ensures Legal(g, [a, b, c, d]) && Exec(g, [a, b, c, d]) == Apply(Apply(Apply(Apply(g, a), b), c), d)
  {
    var g3 := Apply(Apply(Apply(g, a), b), c);
    Then(g3, d, []);
    assert [d] + [] == [d] && [c] + [d] == [c, d] && [b] + [c, d] == [b, c, d] && [a] + [b, c, d] == [a, b, c, d];
    Then(Apply(Apply(g, a), b), c, [d]);
    Then(Apply(g, a), b, [c, d]);
    Then(g, a, [b, c, d]);
  }

  lemma {:induction false} RunConcat(g: Group, a: seq<Step>, b: seq<Step>)
    requires Legal(g, a) && Legal(Exec(g, a), b)
    ensures Legal(g, a + b) && Exec(g, a + b) == Exec(Exec(g, a), b)
    decreases |a|
  {
    if a == [] {
      assert a + b == b;
    } else {
      assert (a + b)[0] == a[0] && (a + b)[1..] == a[1..] + b;
      RunConcat(Apply(g, a[0]), a[1..], b);
    }
  }

  /** A call for member `i` that reports success and goes well up to its write. */
  function Count(a: nat, i: nat): seq<Step> {
    [Begin(a, i, false, true), Write(a, true)]
  }

  lemma CountCounts(g: Group, a: nat, i: nat)
    requires g.state == Running && a !in g.phases && i < g.total && Sum(g) + 1 < g.total
    ensures Legal(g, Count(a, i))
    ensures var g' := Exec(g, Count(a, i));
            && g' == g.(completed := g.completed + 1, phases := g.phases[a := Ended], of := g.of[a := i],
                        bad := g.bad - {a}, written := g.written + {a})
  {
    var g1 := Apply(g, Begin(a, i, false, true));
    var g2 := Apply(g1, Write(a, true));
    Then(g1, Write(a, true), []);
    Then(g, Begin(a, i, false, true), [Write(a, true)]);
    assert [Write(a, true)] + [] == [Write(a, true)];
    assert [Begin(a, i, false, true)] + [Write(a, true)] == Count(a, i);
    assert g1.phases[a := Ended] == g.phases[a := Ended];
  }

  /** Two overlapping calls lose a count: both members are done, one is counted, and every
      call has ended, so nothing but a new ending or a cancellation changes the record. */
  lemma LostUpdate(g: Group) returns (run: seq<Step>)
    requires Created(g) && g.total == 2
    ensures Legal(g, run)
    ensures var g' := Exec(g, run); g'.state == Running && g'.completed == 1 && Everyone(g') && AllEnded(g')
  {
    FourSteps(g, Begin(0, 0, false, true), Begin(1, 1, false, true), Write(0, true), Write(1, true));
    run := [Begin(0, 0, false, true), Begin(1, 1, false, true), Write(0, true), Write(1, true)];
    var g' := Exec(g, run);
    assert g'.of == map[0 := 0, 1 := 1] && g'.written == {0, 1};
    assert Who(g'.of, g'.written) == {0, 1} == Members(2);
  }

  /** A call whose reads fail is not counted: no write fails or is lost, every member has
      ended and every call too, and the workflow stays running with one of two counted. */
  lemma ReadFails(g: Group) returns (run: seq<Step>)
    requires Created(g) && g.total == 2
    ensures Legal(g, run)
    ensures var g' := Exec(g, run);
            && !Short(g') && Once(g') && Who(g'.of, g'.of.Keys) == Members(2) && AllEnded(g')
            && g'.state == Running && g'.completed == 1
  {
    FourSteps(g, Begin(0, 0, false, false), Begin(1, 1, false, true), Write(1, true), Stop(0));
    run := [Begin(0, 0, false, false), Begin(1, 1, false, true), Write(1, true), Stop(0)];
    assert Exec(g, run).of == map[0 := 0, 1 := 1];
    BothOnce(map[0 := 0, 1 := 1]);
  }

  lemma BothOnce(of: map<nat, nat>)
    requires of == map[0 := 0, 1 := 1]
    ensures Apart(of, of.Keys) && Who(of, of.Keys) == Members(2)
  {
    assert of.Keys == {0, 1};
  }

  /** The error of storing the final state is ignored: a batch of one fires its callbacks
      and stays running with exact counters. */
  lemma CloseFails(g: Group) returns (run: seq<Step>)
    requires Created(g) && g.total == 1 && g.batch
    ensures Legal(g, run)
    ensures var g' := Exec(g, run);
            && !Short(g') && Once(g') && Everyone(g') && AllEnded(g')
            && g'.state == Running && g'.completed == 1 && g'.fired == Fired(g.cb, false)
  {
    FourSteps(g, Begin(0, 0, false, true), Write(0, true), Close(0, false), Fire(0));
    run := [Begin(0, 0, false, true), Write(0, true), Close(0, false), Fire(0)];
    var g' := Exec(g, run);
    assert g'.of == map[0 := 0] && g'.written == {0};
    assert Who(g'.of, g'.written) == {0} == Members(1);
  }

  // ---------- cancellation ----------

  /** The call has something left to write, store or push. */
  predicate Live(g: Group, p: Phase) {
    p.Read? || p.Last? || (p.Closing? && Fired(g.cb, p.hasFailure) != [])
  }

  ghost predicate NoneLive(g: Group) {
    forall a | a in g.phases :: !Live(g, g.phases[a])
  }

  /** No counters were written, no final state stored and no callback pushed. */
  ghost predicate Untouched(g: Group, g': Group) {
    && g'.written == g.written && g'.completed == g.completed && g'.failed == g.failed
    && g'.fired == g.fired && g'.state == g.state
  }

  lemma {:induction false} Frozen(g: Group, run: seq<Step>)
    requires g.state == Cancelled && NoneLive(g) && Legal(g, run)
    ensures Untouched(g, Exec(g, run))
    decreases |run|
  {
    if run != [] {
      FrozenStep(g, run[0]);
      Frozen(Apply(g, run[0]), run[1..]);
    }
  }

  lemma FrozenStep(g: Group, e: Step)
    requires g.state == Cancelled && NoneLive(g) && Enabled(g, e)
    ensures Untouched(g, Apply(g, e)) && NoneLive(Apply(g, e))
  {}

  lemma LiveActs(g: Group, a: nat) returns (run: seq<Step>)
    requires g.state == Cancelled && a in g.phases && Live(g, g.phases[a]) && ReaderBounded(g, a, g.phases[a])
    ensures Legal(g, run) && !Untouched(g, Exec(g, run))
  {
    var e := if g.phases[a].Read? then Write(a, true) else if g.phases[a].Last? then Close(a, true) else Fire(a);
    Then(g, e, []);
    run := [e] + [];
  }

  /** Once a group or batch has been cancelled, no run writes its counters, overwrites its
      state or fires callbacks, if and only if no call is past its read with something
      left to do at that moment. */
  lemma CancelStops(g: Group, before: seq<Step>)
    requires Created(g) && Legal(g, before) && Exec(g, before).state == Cancelled
    ensures var b := Exec(g, before);
            (forall run | Legal(b, run) :: Untouched(b, Exec(b, run))) <==> NoneLive(b)
  {
    var b := Exec(g, before);
    if NoneLive(b) {
      forall run | Legal(b, run) ensures Untouched(b, Exec(b, run)) { Frozen(b, run); }
    } else {
      RunNeverOver(g, before);
      var a :| a in b.phases && Live(b, b.phases[a]);
      var run := LiveActs(b, a);
    }
  }

  /** A call that read before the cancellation finishes a batch of one after it, and fires
      its callbacks. */
  lemma CancelTooLate(g: Group) returns (before: seq<Step>, after: seq<Step>)
    requires Created(g) && g.total == 1 && g.batch
    ensures Legal(g, before) && Legal(Exec(g, before), after)
    ensures Exec(g, before).state == Cancelled && Exec(g, before).fired == []
    ensures var g' := Exec(Exec(g, before), after); g'.state == Finished && g'.fired == Fired(g.cb, false)
  {
    var e1, e2, e3 := Begin(0, 0, false, true), CancelRead(true), CancelWrite(true);
    var g3 := Apply(Apply(Apply(g, e1), e2), e3);
    FourSteps(g, e1, e2, e3, Write(0, true));
    Then(Apply(Apply(g, e1), e2), e3, []);
    Then(Apply(g, e1), e2, [e3] + []);
    Then(g, e1, [e2] + ([e3] + []));
    before := [e1] + ([e2] + ([e3] + []));
    var g4 := Apply(g3, Write(0, true));
    var g5 := Apply(g4, Close(0, true));
    Then(g5, Fire(0), []);
    Then(g4, Close(0, true), [Fire(0)] + []);
    Then(g3, Write(0, true), [Close(0, true)] + ([Fire(0)] + []));
    after := [Write(0, true)] + ([Close(0, true)] + ([Fire(0)] + []));
  }

  /** When every call has ended, nothing but a new call or a cancellation changes the record. */
  lemma OnlyStops(g: Group, e: Step)
    requires AllEnded(g) && Enabled(g, e) && !e.CancelWrite? && !e.Begin?
    ensures RowsOf(Apply(g, e)) == RowsOf(g)
  {}

  /** A member that ends twice closes a batch of two as completed and fires its
      callbacks while the other member is still running. */
  lemma EndsTwiceClosesEarly(g: Group) returns (run: seq<Step>)
    requires Created(g) && g.total == 2 && g.batch
    ensures Legal(g, run)
    ensures var g' := Exec(g, run);
            g'.state == Finished && g'.fired == Fired(g.cb, false) && forall a | a in g'.of :: g'.of[a] == 0
  {
    CountCounts(g, 0, 0);
    var g1 := Exec(g, Count(0, 0));
    var tail := FinishTwo(g1, 1, 0);
    RunConcat(g, Count(0, 0), tail);
    run := Count(0, 0) + tail;
  }

  /** One more call that accounts for everybody. */
  lemma FinishTwo(g: Group, a: nat, i: nat) returns (run: seq<Step>)
    requires g.state == Running && a !in g.phases && i < g.total && Sum(g) + 1 == g.total && g.failed == 0 && g.batch
    ensures Legal(g, run)
    ensures var g' := Exec(g, run);
            g'.state == Finished && g'.fired == g.fired + Fired(g.cb, false) && g'.of == g.of[a := i]
  {
    var g1 := Apply(g, Begin(a, i, false, true));
    var g2 := Apply(g1, Write(a, true));
    var g3 := Apply(g2, Close(a, true));
    Then(g3, Fire(a), []);
    Then(g2, Close(a, true), [Fire(a)] + []);
    Then(g1, Write(a, true), [Close(a, true)] + ([Fire(a)] + []));
    run := [Write(a, true)] + ([Close(a, true)] + ([Fire(a)] + []));
    Then(g, Begin(a, i, false, true), run);
    run := [Begin(a, i, false, true)] + run;
  }

  // ---------- how often members may end ----------

  /** How often the run begins a call for member `i`. */
  function Begins(run: seq<Step>, i: nat): nat {
    if run == [] then 0 else (if run[0].Begin? && run[0].i == i then 1 else 0) + Begins(run[1..], i)
  }

  lemma {:induction false} BeginsConcat(a: seq<Step>, b: seq<Step>, i: nat)
    ensures Begins(a + b, i) == Begins(a, i) + Begins(b, i)
    decreases |a|
  {
    if a == [] {
      assert a + b == b;
    } else {
      assert (a + b)[0] == a[0] && (a + b)[1..] == a[1..] + b;
      BeginsConcat(a[1..], b, i);
    }
  }

  /** Member `i` ends at most `ends(i)` times. */
  ghost predicate Respects(run: seq<Step>, ends: nat -> nat) {
    forall i :: Begins(run, i) <= ends(i)
  }

  /** The members that have advanced do not begin again in the run. */
  ghost predicate DoneBeginning(g: Group, run: seq<Step>) {
    forall a | a in g.of :: Begins(run, g.of[a]) == 0
  }

  lemma BeginsNext(g: Group, run: seq<Step>)
    requires run != [] && Legal(g, run) && Once(g) && DoneBeginning(g, run) && g.of.Keys == g.phases.Keys
    requires forall i: nat :: Begins(run, i) <= 1
    ensures Once(Apply(g, run[0])) && DoneBeginning(Apply(g, run[0]), run[1..])
    ensures forall i: nat :: Begins(run[1..], i) <= 1
  {
    var e, g' := run[0], Apply(g, run[0]);
    StepGrows(g, e);
    forall i: nat ensures Begins(run[1..], i) <= 1 { assert Begins(run, i) <= 1; }
    if e.Begin? {
      assert Begins(run, e.i) == 1 + Begins(run[1..], e.i) && Begins(run, e.i) <= 1;
    }
    forall a | a in g'.of ensures Begins(run[1..], g'.of[a]) == 0 {
      if a in g.of && (e.Begin? ==> a != e.a) { assert Begins(run, g.of[a]) == 0; }
    }
  }

  lemma {:induction false} BeginsOnce(g: Group, run: seq<Step>)
    requires Legal(g, run) && Once(g) && DoneBeginning(g, run) && g.of.Keys == g.phases.Keys
    requires forall i: nat :: Begins(run, i) <= 1
    ensures Once(Exec(g, run))
    decreases |run|
  {
    if run != [] {
      StepGrows(g, run[0]);
      BeginsNext(g, run);
      BeginsOnce(Apply(g, run[0]), run[1..]);
    }
  }

  ghost predicate FiredOnce(g: Group) {
    g.fired == [] || g.fired == Fired(g.cb, true) || g.fired == Fired(g.cb, false)
  }

  /** All members but `i` below `n` have been counted, by the call of the same number. */
  ghost predicate OthersCounted(g: Group, b: Group, n: nat, i: nat) {
    && b.state == Running && b.failed == 0 && b.fired == [] && b.cb == g.cb && b.batch == g.batch
    && b.total == g.total && b.completed == (if i < n then n - 1 else n) && b.bad == {}
    && forall a | a in b.phases :: a < n
  }

  lemma BeginsCount(a: nat, i: nat, j: nat)
    ensures Begins(Count(a, i), j) == if j == i then 1 else 0
  {
    assert Count(a, i)[1..] == [Write(a, true)] && [Write(a, true)][1..] == [];
    assert Begins([Write(a, true)], j) == 0;
  }

  lemma CountNext(g: Group, b: Group, n: nat, i: nat)
    requires OthersCounted(g, b, n, i) && n != i && i < g.total && n < g.total
    ensures Legal(b, Count(n, n)) && OthersCounted(g, Exec(b, Count(n, n)), n + 1, i)
  {
    CountCounts(b, n, n);
  }

  lemma {:induction false} CountOthers(g: Group, n: nat, i: nat) returns (run: seq<Step>)
    requires Created(g) && i < g.total && n <= g.total
    ensures Legal(g, run) && OthersCounted(g, Exec(g, run), n, i)
    ensures forall j: nat :: Begins(run, j) == if j < n && j != i then 1 else 0
    decreases n
  {
    if n == 0 {
      run := [];
    } else {
      var before := CountOthers(g, n - 1, i);
      run := before;
      if n - 1 != i {
        CountNext(g, Exec(g, before), n - 1, i);
        RunConcat(g, before, Count(n - 1, n - 1));
        run := before + Count(n - 1, n - 1);
        forall j: nat ensures Begins(run, j) == if j < n && j != i then 1 else 0 {
          BeginsConcat(before, Count(n - 1, n - 1), j);
          BeginsCount(n - 1, n - 1, j);
        }
      }
    }
  }

  /** Two calls for member `i` that both read before either writes ... */
  function ReadBoth(a: nat, i: nat): seq<Step> {
    [Begin(a, i, false, true), Begin(a + 1, i, false, true), Write(a, true), Write(a + 1, true)]
  }

  /** ... and that both close and fire. */
  function CloseBoth(a: nat): seq<Step> {
    [Close(a, true), Fire(a), Close(a + 1, true), Fire(a + 1)]
  }

  lemma BothReach(g: Group, a: nat, i: nat)
    requires g.state == Running && a !in g.phases && a + 1 !in g.phases && i < g.total
    requires Sum(g) + 1 == g.total && g.failed == 0 && g.bad == {}
    ensures Legal(g, ReadBoth(a, i))
    ensures var g' := Exec(g, ReadBoth(a, i));
            && a in g'.phases && a + 1 in g'.phases
            && g'.phases[a] == Last(g.total, 0) && g'.phases[a + 1] == Last(g.total, 0)
            && g'.fired == g.fired && g'.cb == g.cb && g'.batch == g.batch
  {
    FourSteps(g, Begin(a, i, false, true), Begin(a + 1, i, false, true), Write(a, true), Write(a + 1, true));
  }

  lemma BothFire(g: Group, a: nat)
    requires a in g.phases && a + 1 in g.phases && g.batch && g.phases[a].Last? && g.phases[a + 1].Last?
    requires g.phases[a].f == 0 && g.phases[a + 1].f == 0
    ensures Legal(g, CloseBoth(a))
    ensures Exec(g, CloseBoth(a)).fired == g.fired + Fired(g.cb, false) + Fired(g.cb, false)
    ensures Exec(g, CloseBoth(a)).cb == g.cb
  {
    FourSteps(g, Close(a, true), Fire(a), Close(a + 1, true), Fire(a + 1));
  }

  lemma BeginsBoth(a: nat, i: nat, j: nat)
    ensures Begins(ReadBoth(a, i), j) == if j == i then 2 else 0
    ensures Begins(CloseBoth(a), j) == 0
  {
    var r, c := ReadBoth(a, i), CloseBoth(a);
    assert r[1..][1..][1..][1..] == [] && c[1..][1..][1..][1..] == [];
    assert r[1..][1..][1..] == [r[3]] && r[1..][1..] == [r[2], r[3]] && r[1..] == [r[1], r[2], r[3]];
    assert c[1..][1..][1..] == [c[3]] && c[1..][1..] == [c[2], c[3]] && c[1..] == [c[1], c[2], c[3]];
    assert Begins([r[3]], j) == 0 && Begins([r[2], r[3]], j) == 0;
    assert Begins([c[3]], j) == 0 && Begins([c[2], c[3]], j) == 0;
  }

  lemma FiresTwice(g: Group, ends: nat -> nat, i: nat) returns (run: seq<Step>)
    requires Created(g) && g.batch && g.cb.complete && (forall j: nat | j < g.total :: ends(j) >= 1)
    requires i < g.total && ends(i) >= 2
    ensures Legal(g, run) && Respects(run, ends) && !FiredOnce(Exec(g, run))
  {
    var n := g.total;
    var before := CountOthers(g, n, i);
    var b := Exec(g, before);
    BothReach(b, n, i);
    BothFire(Exec(b, ReadBoth(n, i)), n);
    RunConcat(b, ReadBoth(n, i), CloseBoth(n));
    RunConcat(g, before, ReadBoth(n, i) + CloseBoth(n));
    run := before + (ReadBoth(n, i) + CloseBoth(n));
    forall j: nat ensures Begins(run, j) <= ends(j) {
      BeginsConcat(before, ReadBoth(n, i) + CloseBoth(n), j);
      BeginsConcat(ReadBoth(n, i), CloseBoth(n), j);
      BeginsBoth(n, i, j);
    }
    Doubled(g.cb);
  }

  lemma Doubled(cb: Callbacks)
    requires cb.complete
    ensures var twice := Fired(cb, false) + Fired(cb, false);
            twice != [] && twice != Fired(cb, true) && twice != Fired(cb, false)
  {
    var twice := Fired(cb, false) + Fired(cb, false);
    assert twice[0] == OnComplete && twice[|Fired(cb, false)|] == OnComplete;
  }

  lemma OnceFires(g: Group, ends: nat -> nat, run: seq<Step>)
    requires Created(g) && Legal(g, run) && Respects(run, ends) && forall j: nat :: ends(j) <= 1
    ensures FiredOnce(Exec(g, run))
  {
    forall i: nat ensures Begins(run, i) <= 1 { assert Begins(run, i) <= ends(i); }
    BeginsOnce(g, run);
    CallbacksAtMostOnce(g, run);
    var g' := Exec(g, run);
    assert g'.fired == [] || g'.fired == Fired(g'.cb, g'.bad != {});
  }

  /** A batch with an on_complete callback whose members all end fires its callbacks at
      most once in every run, if and only if no member ends twice. */
  lemma FiresOnceIff(g: Group, ends: nat -> nat)
    requires Created(g) && g.batch && g.cb.complete && forall j: nat | j < g.total :: ends(j) >= 1
    requires forall j: nat | j >= g.total :: ends(j) == 0
    ensures (forall run | Legal(g, run) && Respects(run, ends) :: FiredOnce(Exec(g, run))) <==>
            forall j: nat | j < g.total :: ends(j) == 1
  {
    if forall j: nat | j < g.total :: ends(j) == 1 {
      forall run | Legal(g, run) && Respects(run, ends) ensures FiredOnce(Exec(g, run)) {
        OnceFires(g, ends, run);
      }
    } else {
      var i: nat :| i < g.total && ends(i) != 1;
      var run := FiresTwice(g, ends, i);
    }
  }

  // ---------- calls that do not overlap ----------

  ghost predicate NobodyReading(g: Group) {
    forall i | i in g.phases :: !g.phases[i].Read?
  }

  /** No call starts while another is between its read and its write. */
  ghost predicate OneByOne(g: Group, run: seq<Step>)
    requires Legal(g, run)
    decreases |run|
  {
    run == [] || ((run[0].Begin? ==> NobodyReading(g)) && OneByOne(Apply(g, run[0]), run[1..]))
  }

  /** The only reader, if any, has read what is stored. */
  ghost predicate OneReader(g: Group) {
    && (forall i, j | i in g.phases && j in g.phases && g.phases[i].Read? && g.phases[j].Read? :: i == j)
    && (forall i | i in g.phases && g.phases[i].Read? :: g.phases[i] == Read(g.completed, g.failed))
  }

  /** Calls that do not overlap lose nothing. */
  lemma {:induction false} OneByOneLosesNothing(g: Group, run: seq<Step>)
    requires Legal(g, run) && OneByOne(g, run) && OneReader(g) && !g.h.lost
    ensures !Exec(g, run).h.lost
    decreases |run|
  {
    if run != [] {
      var e, g' := run[0], Apply(g, run[0]);
      assert OneReader(g') && !g'.h.lost;
      OneByOneLosesNothing(g', run[1..]);
    }
  }

  // ---------- one call at a time ----------

  /** Which store calls of an AdvanceWorkflow call succeed. */
  datatype Calls = Calls(read: bool, write: bool, close: bool)

  /** The end of a call that has written the counters. */
  function Finish(g: Group, i: nat, x: Calls): Group
    requires i in g.phases
  {
    if !g.phases[i].Last? then g
    else
      var g' := Apply(g, Close(i, x.close));
      if g.batch then Apply(g', Fire(i)) else g'
  }

  /** Call `a` of AdvanceWorkflow, for member `i`, that nothing interrupts. */
  function Advance(g: Group, a: nat, i: nat, failed: bool, x: Calls): Group
    requires Enabled(g, Begin(a, i, failed, x.read))
  {
    var g' := Apply(g, Begin(a, i, failed, x.read));
    if g'.phases[a].Ended? then g' else Finish(Apply(g', Write(a, x.write)), a, x)
  }

  lemma FinishEffect(g: Group, i: nat, x: Calls)
    requires i in g.phases
    ensures var g' := Finish(g, i, x);
            && g'.total == g.total && g'.batch == g.batch && g'.cb == g.cb
            && g'.completed == g.completed && g'.failed == g.failed
            && (if !g.phases[i].Last? then g' == g
                else && g'.state == (if !x.close then g.state else if g.phases[i].f > 0 then Broken else Finished)
                     && g'.fired == g.fired + (if g.batch then Fired(g.cb, g.phases[i].f > 0) else []))
  {}

  lemma ExecOne(g: Group, e: Step, run: seq<Step>)
    requires Enabled(g, e) && Legal(Apply(g, e), run)
    ensures Legal(g, [e] + run) && Exec(g, [e] + run) == Exec(Apply(g, e), run)
    ensures OneByOne(Apply(g, e), run) && (e.Begin? ==> NobodyReading(g)) ==> OneByOne(g, [e] + run)
  {
    assert ([e] + run)[1..] == run;
  }

  lemma FinishIsRun(g: Group, i: nat, x: Calls) returns (run: seq<Step>)
    requires i in g.phases && NobodyReading(g)
    ensures Legal(g, run) && Exec(g, run) == Finish(g, i, x) && OneByOne(g, run)
    ensures NobodyReading(Finish(g, i, x))
  {
    run := [];
    if g.phases[i].Last? {
      var g' := Apply(g, Close(i, x.close));
      if g.batch {
        ExecOne(g', Fire(i), []);
        run := [Fire(i)] + [];
      }
      ExecOne(g, Close(i, x.close), run);
      run := [Close(i, x.close)] + run;
    }
  }

  /** It is a run of the machine, and serial if nobody was in the middle of a call. */
  lemma AdvanceIsRun(g: Group, a: nat, i: nat, failed: bool, x: Calls) returns (run: seq<Step>)
    requires Enabled(g, Begin(a, i, failed, x.read)) && NobodyReading(g)
    ensures Legal(g, run) && Exec(g, run) == Advance(g, a, i, failed, x) && OneByOne(g, run)
    ensures NobodyReading(Advance(g, a, i, failed, x))
  {
    var g1 := Apply(g, Begin(a, i, failed, x.read));
    run := [];
    if !g1.phases[a].Ended? {
      var g2 := Apply(g1, Write(a, x.write));
      run := FinishIsRun(g2, a, x);
      ExecOne(g1, Write(a, x.write), run);
      run := [Write(a, x.write)] + run;
    }
    ExecOne(g, Begin(a, i, failed, x.read), run);
    run := [Begin(a, i, failed, x.read)] + run;
  }

  /** What is stored of a group or batch: the record and the callback jobs pushed for it. */
  datatype Rows = Rows(
    total: nat,
    batch: bool,
    cb: Callbacks,
    state: WorkflowState,
    completed: nat,
    failed: nat,
    fired: seq<Callback>)

  function RowsOf(g: Group): Rows {
    Rows(g.total, g.batch, g.cb, g.state, g.completed, g.failed, g.fired)
  }

  /** The net effect of an uninterrupted call on the rows. */
  function Net(r: Rows, failed: bool, x: Calls): Rows {
    if !x.read || r.state != Running then r
    else
      var c, f := if failed then r.completed else r.completed + 1, if failed then r.failed + 1 else r.failed;
      var last := c + f >= r.total;
      r.(completed := if x.write then c else r.completed,
         failed := if x.write then f else r.failed,
         state := if !last || !x.close then r.state else if f > 0 then Broken else Finished,
         fired := if last && r.batch then r.fired + Fired(r.cb, f > 0) else r.fired)
  }

  /** The net effect is that of the machine's steps, whatever other calls were made before. */
  lemma AdvanceNet(g: Group, a: nat, i: nat, failed: bool, x: Calls)
    requires Enabled(g, Begin(a, i, failed, x.read))
    ensures RowsOf(Advance(g, a, i, failed, x)) == Net(RowsOf(g), failed, x)
  {
    var g1 := Apply(g, Begin(a, i, failed, x.read));
    if x.read && g.state == Running {
      assert a in g1.bad <==> failed;
      FinishEffect(Apply(g1, Write(a, x.write)), a, x);
    }
  }

  /** What an uninterrupted call adds to the callbacks: nothing, unless its counters account
      for all members of a batch, and then on_complete first, on_success if none of them
      failed and on_failure if one did, each once and as far as defined. */
  ghost predicate Announces(r: Rows, failed: bool, x: Calls, r': Rows) {
    && r.fired <= r'.fired
    && Announced(r'.fired[|r.fired|..], r.cb,
                 x.read && r.state == Running && r.batch && r.completed + r.failed + 1 >= r.total,
                 !failed && r.failed == 0)
  }

  lemma FiredNet(r: Rows, failed: bool, x: Calls) returns (cs: seq<Callback>)
    ensures Net(r, failed, x).fired == r.fired + cs
    ensures Announced(cs, r.cb, x.read && r.state == Running && r.batch && r.completed + r.failed + 1 >= r.total,
                      !failed && r.failed == 0)
  {
    var over := x.read && r.state == Running && r.batch && r.completed + r.failed + 1 >= r.total;
    cs := if over then Fired(r.cb, failed || r.failed > 0) else [];
    FiredAnnounces(r.cb, failed || r.failed > 0);
  }

  lemma NetAnnounces(r: Rows, failed: bool, x: Calls)
    ensures Announces(r, failed, x, Net(r, failed, x))
  {
    var cs := FiredNet(r, failed, x);
    assert (r.fired + cs)[|r.fired|..] == cs;
  }

  /** The stored rows of a group or batch. */
  class Workflow {
    const total: nat
    const batch: bool
    const cb: Callbacks
    var state: WorkflowState
    var completed: nat
    var failed: nat
    var fired: seq<Callback>

    ghost function Stored(): Rows
      reads this
    {
      Rows(total, batch, cb, state, completed, failed, fired)
    }

    constructor (jobs: nat, isBatch: bool, callbacks: Callbacks)
      ensures Stored() == Rows(jobs, isBatch, callbacks, Running, 0, 0, [])
    {
      total, batch, cb := jobs, isBatch, callbacks;
      state, completed, failed, fired := Running, 0, 0, [];
    }

    method FireBatchCallbacks(hasFailure: bool)
      modifies `fired
      ensures fired == old(fired) + Fired(cb, hasFailure)
    {
      if cb.complete { fired := fired + [OnComplete]; }
      if !hasFailure && cb.success { fired := fired + [OnSuccess]; }
      if hasFailure && cb.failure { fired := fired + [OnFailure]; }
    }

    /** AdvanceWorkflow for a group or batch: the errors of its updates are ignored. */
    method AdvanceWorkflow(hasFailed: bool, x: Calls)
      modifies this
      ensures Stored() == Net(old(Stored()), hasFailed, x)
      ensures Announces(old(Stored()), hasFailed, x, Stored())
    {
      NetAnnounces(Stored(), hasFailed, x);
      if !x.read || state != Running { return; }
      var done, bad := completed, failed;
      if hasFailed {
        bad := bad + 1;
      } else {
        done := done + 1;
      }
      if x.write { completed, failed := done, bad; }
      if done + bad >= total {
        var finalState := Finished;
        if bad > 0 {
          finalState := Broken;
        }
        if x.close { state := finalState; }
        if batch {
          FireBatchCallbacks(bad > 0);
        }
      }
    }

    /** The members are cancelled in between; the error of the update is ignored. */
    method CancelWorkflow(update: bool) returns (accepted: bool)
      modifies `state
      ensures accepted <==> old(state) == Running
      ensures state == if accepted && update then Cancelled else old(state)
    {
      if state == Finished || state == Broken || state == Cancelled { return false; }
      if update { state := Cancelled; }
      return true;
    }
  }
}
