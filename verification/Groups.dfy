/** Group and batch workflows. */
module Groups {
  import opened Counting

  datatype WorkflowState = Running | Finished | Broken | Cancelled

  datatype Callback = OnComplete | OnSuccess | OnFailure

  /** Which callbacks are defined. */
  datatype Callbacks = Callbacks(complete: bool, success: bool, failure: bool)

  /** The callback jobs of a closed batch, in order. */
  function Fired(cb: Callbacks, hasFailure: bool): seq<Callback> {
    (if cb.complete then [OnComplete] else [])
    + (if !hasFailure && cb.success then [OnSuccess] else [])
    + (if hasFailure && cb.failure then [OnFailure] else [])
  }

  /** What a batch has announced: nothing until it has closed, and then every callback that
      is defined and fits the outcome, once, with on_complete first. */
  ghost predicate Announced(fired: seq<Callback>, cb: Callbacks, closed: bool, clean: bool) {
    && (forall i, j | 0 <= i < j < |fired| :: fired[i] != fired[j])
    && (OnComplete in fired <==> closed && cb.complete)
    && (OnSuccess in fired <==> closed && cb.success && clean)
    && (OnFailure in fired <==> closed && cb.failure && !clean)
    && (OnComplete in fired ==> fired[0] == OnComplete)
  }

  lemma FiredAnnounces(cb: Callbacks, hasFailure: bool)
    ensures Announced(Fired(cb, hasFailure), cb, true, !hasFailure)
  {}

  /** Where a call of AdvanceWorkflow is. */
  datatype Phase =
    | Read(c: nat, f: nat)     // holds the counters it read
    | Last(c: nat, f: nat)     // has written counters that account for all members
    | Closing(hasFailure: bool) // has closed the batch, callbacks to fire
    | Ended

  /** What has happened: a write replaced counters its call had not read (`lost`), writes of
      the counters failed (`dropped`), a final state was not stored (`unclosed`), a call
      stopped before its callbacks (`silent`), a cancellation was stored (`cancelled`). */
  datatype History = History(lost: bool, dropped: set<nat>, unclosed: bool, silent: bool, cancelled: bool)

  /** Calls are numbered; `of` gives the member a call is about. `written` are the calls
      that wrote the counters, `bad` the calls about a failure; `finishers` reached Last.
      `cancels` counts the CancelWorkflow calls that have read a running record. */
  datatype Group = Group(
    total: nat,
    batch: bool,
    cb: Callbacks,
    state: WorkflowState,
    completed: nat,
    failed: nat,
    phases: map<nat, Phase>,
    of: map<nat, nat>,
    bad: set<nat>,
    written: set<nat>,
    finishers: set<nat>,
    h: History,
    cancels: nat,
    fired: seq<Callback>)

  predicate Created(g: Group) {
    && g.state == Running && g.completed == 0 && g.failed == 0 && g.phases == map[] && g.of == map[]
    && g.bad == {} && g.written == {} && g.finishers == {} && g.h == History(false, {}, false, false, false)
    && g.cancels == 0 && g.fired == []
  }

  /** Every ending of a member calls AdvanceWorkflow, which reads the workflow record, adds
      one to a counter, writes the counters back and, if they account for all members,
      closes the workflow and fires the batch callbacks. The calls interleave store call by
      store call and may fail or stop, and a member may end more than once (see module
      Endings). */
  datatype Step =
    | Begin(a: nat, i: nat, failed: bool, ok: bool)
    | Write(a: nat, ok: bool)
    | Close(a: nat, ok: bool)
    | Fire(a: nat)
    | Stop(a: nat)
    | CancelRead(ok: bool)
    | CancelWrite(ok: bool)

  /** A call for a member may begin at any time; the other steps follow its code. */
  predicate Enabled(g: Group, e: Step) {
    match e
    case Begin(a, i, _, _) => i < g.total && a !in g.phases
    case Write(a, _) => a in g.phases && g.phases[a].Read?
    case Close(a, _) => a in g.phases && g.phases[a].Last?
    case Fire(a) => a in g.phases && g.phases[a].Closing?
    case Stop(a) => a in g.phases
    case CancelRead(_) => true
    case CancelWrite(_) => g.cancels > 0
  }

  function Apply(g: Group, e: Step): Group
    requires Enabled(g, e)
  {
    match e
    case Begin(a, i, failed, ok) =>
      g.(phases := g.phases[a := if ok && g.state == Running then Read(g.completed, g.failed) else Ended],
         of := g.of[a := i],
         bad := if failed then g.bad + {a} else g.bad - {a})
    case Write(a, ok) =>
      var p := g.phases[a];
      var c, f := if a in g.bad then p.c else p.c + 1, if a in g.bad then p.f + 1 else p.f;
      var last := c + f >= g.total;
      g.(completed := if ok then c else g.completed,
         failed := if ok then f else g.failed,
         phases := g.phases[a := if last then Last(c, f) else Ended],
         written := g.written + {a},
         finishers := if last then g.finishers + {a} else g.finishers,
         h := g.h.(lost := g.h.lost || (ok && (p.c != g.completed || p.f != g.failed)),
                   dropped := if ok then g.h.dropped else g.h.dropped + {a}))
    case Close(a, ok) =>
      var hasFailure := g.phases[a].f > 0;
      g.(state := if !ok then g.state else if hasFailure then Broken else Finished,
         phases := g.phases[a := if g.batch then Closing(hasFailure) else Ended],
         h := g.h.(unclosed := g.h.unclosed || !ok))
    case Fire(a) =>
      g.(fired := g.fired + Fired(g.cb, g.phases[a].hasFailure), phases := g.phases[a := Ended])
    case Stop(a) =>
      var p := g.phases[a];
      g.(phases := g.phases[a := Ended],
         h := g.h.(unclosed := g.h.unclosed || p.Last?, silent := g.h.silent || p.Last? || p.Closing?))
    case CancelRead(ok) => g.(cancels := if ok && g.state == Running then g.cancels + 1 else g.cancels)
    case CancelWrite(ok) =>
      g.(cancels := g.cancels - 1, state := if ok then Cancelled else g.state,
         h := g.h.(cancelled := g.h.cancelled || ok))
  }

  predicate Legal(g: Group, run: seq<Step>)
    decreases |run|
  {
    run == [] || (Enabled(g, run[0]) && Legal(Apply(g, run[0]), run[1..]))
  }

  function Exec(g: Group, run: seq<Step>): Group
    requires Legal(g, run)
    decreases |run|
  {
    if run == [] then g else Exec(Apply(g, run[0]), run[1..])
  }

  ghost predicate AllEnded(g: Group) {
    forall a | a in g.phases :: g.phases[a].Ended?
  }

  // ---------- any interleaving, any failing calls ----------

  ghost predicate Numbered(g: Group) {
    && g.written <= g.phases.Keys && g.bad <= g.phases.Keys && g.of.Keys == g.phases.Keys
    && forall a | a in g.of :: g.of[a] < g.total
  }

  /** The counters `c` and `f` are at most the numbers of calls behind them. */
  ghost predicate Bounded(g: Group, c: nat, f: nat) {
    c <= |g.written - g.bad| && f <= |g.written * g.bad|
  }

  ghost predicate ReaderBounded(g: Group, a: nat, p: Phase) {
    p.Read? ==> a !in g.written && Bounded(g, p.c, p.f)
  }

  /** No counter, stored or read, exceeds the number of calls behind it. */
  ghost predicate NeverOver(g: Group) {
    && Numbered(g)
    && Bounded(g, g.completed, g.failed)
    && forall a | a in g.phases :: ReaderBounded(g, a, g.phases[a])
  }

  lemma KeepsNumbered(g: Group, e: Step)
    requires Numbered(g) && Enabled(g, e)
    ensures Numbered(Apply(g, e))
  {}

  /** The numbers of calls behind the counters do not fall. */
  lemma BoundsGrow(g: Group, e: Step, c: nat, f: nat)
    requires Numbered(g) && Enabled(g, e) && Bounded(g, c, f) && (e.Write? ==> e.a !in g.written)
    ensures Bounded(Apply(g, e), c, f)
  {
    match e
    case Begin(a, _, _, _) => LateCall(g.written, g.bad, a);
    case Write(a, _) => AddMember(g.written, g.bad, a);
    case _ =>
  }

  lemma KeepsReader(g: Group, e: Step, b: nat)
    requires NeverOver(g) && Enabled(g, e) && b in Apply(g, e).phases
    ensures ReaderBounded(Apply(g, e), b, Apply(g, e).phases[b])
  {
    if e.Write? { assert ReaderBounded(g, e.a, g.phases[e.a]); }
    if b in g.phases && g.phases[b].Read? {
      assert ReaderBounded(g, b, g.phases[b]);
      BoundsGrow(g, e, g.phases[b].c, g.phases[b].f);
    } else if e.Begin? {
      BoundsGrow(g, e, g.completed, g.failed);
    }
  }

  lemma KeepsNeverOver(g: Group, e: Step)
    requires NeverOver(g) && Enabled(g, e)
    ensures NeverOver(Apply(g, e))
  {
    var g' := Apply(g, e);
    KeepsNumbered(g, e);
    if e.Write? {
      assert ReaderBounded(g, e.a, g.phases[e.a]);
      AddMember(g.written, g.bad, e.a);
    } else {
      BoundsGrow(g, e, g.completed, g.failed);
    }
    forall b | b in g'.phases ensures ReaderBounded(g', b, g'.phases[b]) { KeepsReader(g, e, b); }
  }

  lemma {:induction false} RunNeverOver(g: Group, run: seq<Step>)
    requires NeverOver(g) && Legal(g, run)
    ensures NeverOver(Exec(g, run))
    decreases |run|
  {
    if run != [] {
      KeepsNeverOver(g, run[0]);
      RunNeverOver(Apply(g, run[0]), run[1..]);
    }
  }

  // ---------- when no member advances twice ----------

  /** No member has advanced twice. */
  ghost predicate Once(g: Group) {
    Apart(g.of, g.of.Keys)
  }

  /** Every member has advanced. */
  ghost predicate Everyone(g: Group) {
    Who(g.of, g.written) == Members(g.total)
  }

  lemma CallsBounded(g: Group)
    requires NeverOver(g) && Once(g)
    ensures |g.phases.Keys| <= g.total
  {
    WhoSize(g.of, g.of.Keys);
    SubsetSize(Who(g.of, g.of.Keys), Members(g.total));
  }

  lemma AllWritten(g: Group)
    requires NeverOver(g) && Once(g) && |g.written| >= g.total
    ensures g.written == g.phases.Keys && |g.written| == g.total && Everyone(g)
  {
    CallsBounded(g);
    SubsetSize(g.written, g.phases.Keys);
    WhoSize(g.of, g.written);
    SubsetSize(Who(g.of, g.written), Members(g.total));
  }

  /** A call that accounts for everybody has right counts and has not fired yet. */
  ghost predicate LateOk(g: Group, a: nat, p: Phase) {
    match p
    case Last(c, f) => a in g.finishers && g.fired == [] && c == |g.written - g.bad| && f == |g.written * g.bad|
    case Closing(hasFailure) => a in g.finishers && g.fired == [] && (hasFailure <==> g.bad != {})
    case _ => true
  }

  ghost predicate LateCallsOk(g: Group) {
    forall a | a in g.phases :: LateOk(g, a, g.phases[a])
  }

  ghost predicate Sole(s: set<nat>) {
    forall a, b | a in s && b in s :: a == b
  }

  /** At most one call accounts for everybody, and then every call has written. */
  ghost predicate OneFinisher(g: Group) {
    && Sole(g.finishers)
    && (g.finishers != {} ==> g.written == g.phases.Keys && |g.written| == g.total)
    && LateCallsOk(g)
    && (g.fired != [] ==> g.finishers != {} && g.fired == Fired(g.cb, g.bad != {}))
    && (g.state == Finished ==> g.finishers != {} && g.bad == {})
    && (g.state == Broken ==> g.finishers != {} && g.bad != {})
  }

  lemma FinisherIsLast(g: Group, a: nat, ok: bool)
    requires NeverOver(g) && Once(g) && a in g.phases && g.phases[a].Read?
    requires Apply(g, Write(a, ok)).phases[a].Last?
    ensures var g' := Apply(g, Write(a, ok));
            && g'.written == g'.phases.Keys && |g'.written| == g.total && g.written != g.phases.Keys
            && g'.phases[a].c == |g'.written - g.bad| && g'.phases[a].f == |g'.written * g.bad|
  {
    var w := g.written + {a};
    assert ReaderBounded(g, a, g.phases[a]);
    AddMember(g.written, g.bad, a);
    SplitSize(w, g.bad);
    CallsBounded(g);
    SubsetSize(w, g.phases.Keys);
    assert Apply(g, Write(a, ok)).phases.Keys == g.phases.Keys;
  }

  lemma OneMoreCall(g: Group, e: Step)
    requires NeverOver(g) && Enabled(g, e) && e.Begin? && Once(Apply(g, e))
    ensures |g.phases.Keys| < g.total
  {
    KeepsNeverOver(g, e);
    CallsBounded(Apply(g, e));
    assert Apply(g, e).phases.Keys == g.phases.Keys + {e.a};
  }

  /** After everybody has written, nobody can begin without advancing twice. */
  lemma NoLateBegin(g: Group, e: Step)
    requires NeverOver(g) && OneFinisher(g) && Enabled(g, e) && (e.Begin? || e.Write?) && Once(Apply(g, e))
    ensures g.finishers == {}
  {
    if e.Begin? {
      OneMoreCall(g, e);
    } else {
      assert ReaderBounded(g, e.a, g.phases[e.a]);
    }
  }

  lemma EarlyKeepsFinisher(g: Group, e: Step)
    requires NeverOver(g) && OneFinisher(g) && Enabled(g, e) && (e.Begin? || e.Write?)
    requires Once(g) && g.finishers == {}
    ensures OneFinisher(Apply(g, e))
  {
    var g' := Apply(g, e);
    if e.Write? && g'.phases[e.a].Last? { FinisherIsLast(g, e.a, e.ok); }
    forall b | b in g'.phases ensures LateOk(g', b, g'.phases[b]) {
      if b in g.phases { assert LateOk(g, b, g.phases[b]); }
    }
  }

  lemma CloseKeepsFinisher(g: Group, a: nat, ok: bool)
    requires NeverOver(g) && OneFinisher(g) && Enabled(g, Close(a, ok))
    ensures OneFinisher(Apply(g, Close(a, ok)))
  {
    var g' := Apply(g, Close(a, ok));
    assert LateOk(g, a, g.phases[a]);
    assert g.written * g.bad == g.bad && g'.phases.Keys == g.phases.Keys;
    forall b | b in g'.phases ensures LateOk(g', b, g'.phases[b]) { assert LateOk(g, b, g.phases[b]); }
  }

  lemma FireKeepsFinisher(g: Group, a: nat)
    requires OneFinisher(g) && Enabled(g, Fire(a))
    ensures OneFinisher(Apply(g, Fire(a)))
  {
    var g' := Apply(g, Fire(a));
    assert LateOk(g, a, g.phases[a]) && g'.phases.Keys == g.phases.Keys;
    forall b | b in g'.phases ensures LateOk(g', b, g'.phases[b]) { assert LateOk(g, b, g.phases[b]); }
  }

  lemma EndKeepsFinisher(g: Group, e: Step)
    requires OneFinisher(g) && Enabled(g, e) && (e.Stop? || e.CancelRead? || e.CancelWrite?)
    ensures OneFinisher(Apply(g, e))
  {
    var g' := Apply(g, e);
    assert g'.phases.Keys == g.phases.Keys;
    forall b | b in g'.phases ensures LateOk(g', b, g'.phases[b]) { assert LateOk(g, b, g.phases[b]); }
  }

  lemma KeepsOneFinisher(g: Group, e: Step)
    requires NeverOver(g) && OneFinisher(g) && Enabled(g, e) && Once(g) && Once(Apply(g, e))
    ensures OneFinisher(Apply(g, e))
  {
    match e
    case Close(a, ok) => CloseKeepsFinisher(g, a, ok);
    case Fire(a) => FireKeepsFinisher(g, a);
    case Stop(_) => EndKeepsFinisher(g, e);
    case CancelRead(_) => EndKeepsFinisher(g, e);
    case CancelWrite(_) => EndKeepsFinisher(g, e);
    case _ =>
      NoLateBegin(g, e);
      EarlyKeepsFinisher(g, e);
  }

  /** What a step never changes, or never again. */
  lemma StepGrows(g: Group, e: Step)
    requires Enabled(g, e) && g.of.Keys == g.phases.Keys
    ensures var g' := Apply(g, e);
            && g'.total == g.total && g'.cb == g.cb && g'.batch == g.batch
            && g.h.dropped <= g'.h.dropped && (g.h.lost ==> g'.h.lost) && g'.of.Keys == g'.phases.Keys
            && g'.of == if e.Begin? then g.of[e.a := e.i] else g.of
  {}

  ghost predicate Extends(g: Group, g': Group) {
    && g'.total == g.total && g'.cb == g.cb && g'.batch == g.batch
    && g.h.dropped <= g'.h.dropped && (g.h.lost ==> g'.h.lost)
    && forall a | a in g.of :: a in g'.of && g'.of[a] == g.of[a]
  }

  lemma {:induction false} RunGrows(g: Group, run: seq<Step>)
    requires Legal(g, run) && g.of.Keys == g.phases.Keys
    ensures Extends(g, Exec(g, run))
    decreases |run|
  {
    if run != [] {
      StepGrows(g, run[0]);
      RunGrows(Apply(g, run[0]), run[1..]);
    }
  }

  lemma OnceBefore(g: Group, run: seq<Step>)
    requires Legal(g, run) && g.of.Keys == g.phases.Keys && Once(Exec(g, run))
    ensures Once(g)
  {
    RunGrows(g, run);
  }

  lemma {:induction false} RunKeeps(g: Group, run: seq<Step>)
    requires NeverOver(g) && OneFinisher(g) && Legal(g, run) && Once(Exec(g, run))
    ensures NeverOver(Exec(g, run)) && OneFinisher(Exec(g, run))
    decreases |run|
  {
    if run != [] {
      var g1 := Apply(g, run[0]);
      OnceBefore(g, run);
      KeepsNeverOver(g, run[0]);
      OnceBefore(g1, run[1..]);
      KeepsOneFinisher(g, run[0]);
      RunKeeps(g1, run[1..]);
    }
  }

  /** However the calls interleave and fail, the counters never exceed the calls behind
      them. If no member advances twice, the callbacks are fired at most once, only
      after every member has advanced, and the success or failure callback is chosen by
      whether a member failed; so is the final state. */
  lemma CallbacksAtMostOnce(g: Group, run: seq<Step>)
    requires Created(g) && Legal(g, run)
    ensures var g' := Exec(g, run);
            g'.completed <= |g'.written - g'.bad| && g'.failed <= |g'.written * g'.bad|
    ensures var g' := Exec(g, run);
            Once(g') ==>
              && (g'.fired == [] || (g'.fired == Fired(g'.cb, g'.bad != {}) && Everyone(g')))
              && (g'.state == Finished ==> Everyone(g') && g'.bad == {})
              && (g'.state == Broken ==> Everyone(g') && g'.bad != {})
    ensures var g' := Exec(g, run); Once(g') ==> Announced(g'.fired, g'.cb, g'.fired != [], g'.bad == {})
  {
    RunNeverOver(g, run);
    if Once(Exec(g, run)) {
      RunKeeps(g, run);
      FiredAnnounces(Exec(g, run).cb, Exec(g, run).bad != {});
      if Exec(g, run).finishers != {} { AllWritten(Exec(g, run)); }
    }
  }

  /** If no other member advances twice, a member that never advances, because it was
      cancelled or has expired, keeps the workflow from closing and the callbacks from
      firing. */
  lemma MissingMember(g: Group, run: seq<Step>, i: nat)
    requires Created(g) && Legal(g, run) && Once(Exec(g, run))
    requires i < g.total && forall a | a in Exec(g, run).of :: Exec(g, run).of[a] != i
    ensures Exec(g, run).fired == [] && Exec(g, run).state in {Running, Cancelled}
  {
    var g' := Exec(g, run);
    CallbacksAtMostOnce(g, run);
    RunGrows(g, run);
    assert i in Members(g'.total) && i !in Who(g'.of, g'.written);
  }

  // ---------- when the counters are exact ----------

  function Sum(g: Group): nat {
    g.completed + g.failed
  }

  /** A write of the counters failed or replaced counters its call had not read. */
  predicate Short(g: Group) {
    g.h.lost || g.h.dropped != {}
  }

  /** The counters are exact until the first such write, and short from then on. */
  ghost predicate Counted(g: Group) {
    if Short(g) then Sum(g) < |g.written| else Sum(g) == |g.written|
  }

  ghost predicate ReaderOk(g: Group, p: Phase) {
    p.Read? ==> if Short(g) then p.c + p.f < |g.written| else p.c <= g.completed && p.f <= g.failed
  }

  ghost predicate ReadersOk(g: Group) {
    forall a | a in g.phases :: ReaderOk(g, g.phases[a])
  }

  ghost predicate ExactUntilLost(g: Group) {
    && Counted(g)
    && ReadersOk(g)
    && (!Short(g) ==> (g.finishers != {} <==> |g.written| >= g.total))
  }

  lemma WriteKeepsExact(g: Group, a: nat, ok: bool)
    requires NeverOver(g) && ExactUntilLost(g) && Enabled(g, Write(a, ok))
    ensures ExactUntilLost(Apply(g, Write(a, ok)))
  {
    assert ReaderOk(g, g.phases[a]) && ReaderBounded(g, a, g.phases[a]);
    assert |g.written + {a}| == |g.written| + 1;
    var g' := Apply(g, Write(a, ok));
    forall b | b in g'.phases ensures ReaderOk(g', g'.phases[b]) {
      assert b in g.phases && ReaderOk(g, g.phases[b]);
    }
  }

  lemma KeepsExact(g: Group, e: Step)
    requires NeverOver(g) && ExactUntilLost(g) && Enabled(g, e)
    ensures ExactUntilLost(Apply(g, e))
  {
    var g' := Apply(g, e);
    if e.Write? {
      WriteKeepsExact(g, e.a, e.ok);
    } else {
      forall b | b in g'.phases ensures ReaderOk(g', g'.phases[b]) {
        if b in g.phases { assert ReaderOk(g, g.phases[b]); }
      }
    }
  }

  lemma {:induction false} RunKeepsExact(g: Group, run: seq<Step>)
    requires NeverOver(g) && ExactUntilLost(g) && Legal(g, run)
    ensures ExactUntilLost(Exec(g, run))
    decreases |run|
  {
    if run != [] {
      KeepsNeverOver(g, run[0]);
      KeepsExact(g, run[0]);
      RunKeepsExact(Apply(g, run[0]), run[1..]);
    }
  }

  /** Over all interleavings and failing calls, the counters equal the numbers of all calls
      about completed and about failed members exactly when every call got to its write,
      no write failed and none replaced counters its call had not read. When the writes
      are exact, some call accounts for all members exactly when there were as many writing
      calls as members. */
  lemma ExactUnlessLost(g: Group, run: seq<Step>)
    requires Created(g) && Legal(g, run) && g.total > 0
    ensures var g' := Exec(g, run);
            && (g'.completed == |g'.of.Keys - g'.bad| && g'.failed == |g'.of.Keys * g'.bad| <==>
                  !Short(g') && g'.written == g'.of.Keys)
            && (!Short(g') ==> (g'.finishers != {} <==> |g'.written| >= g'.total))
  {
    RunNeverOver(g, run);
    RunGrows(g, run);
    RunKeepsExact(g, run);
    var g' := Exec(g, run);
    SplitSize(g'.written, g'.bad);
    SplitSize(g'.of.Keys, g'.bad);
    SubsetSize(g'.written, g'.of.Keys);
  }

  /** The write of call `a` is the first to account for all members, with exact counters. */
  predicate FirstToClose(g: Group, a: nat, ok: bool) {
    Enabled(g, Write(a, ok)) && !Short(g) && g.finishers == {} && Apply(g, Write(a, ok)).phases[a].Last?
  }

  lemma ClosesAtTotal(g: Group, a: nat, ok: bool)
    requires NeverOver(g) && ExactUntilLost(g) && FirstToClose(g, a, ok)
    ensures |Apply(g, Write(a, ok)).written| == g.total
  {
    assert ReaderOk(g, g.phases[a]) && ReaderBounded(g, a, g.phases[a]);
    assert |g.written + {a}| == |g.written| + 1;
  }

  lemma AllIffApart(g: Group)
    requires NeverOver(g) && |g.written| == g.total
    ensures Everyone(g) <==> Apart(g.of, g.written)
  {
    WhoSize(g.of, g.written);
    SubsetSize(Who(g.of, g.written), Members(g.total));
  }

  /** The call that closes a workflow whose counters are exact does so when all members
      have advanced, if and only if no member has advanced twice. */
  lemma ClosesTooSoon(g: Group, run: seq<Step>, a: nat, ok: bool)
    requires Created(g) && Legal(g, run) && g.total > 0
    ensures FirstToClose(Exec(g, run), a, ok) ==>
              var g' := Apply(Exec(g, run), Write(a, ok));
              Everyone(g') <==> Apart(g'.of, g'.written)
  {
    var b := Exec(g, run);
    if FirstToClose(b, a, ok) {
      RunNeverOver(g, run);
      RunKeepsExact(g, run);
      ClosesAtTotal(b, a, ok);
      KeepsNeverOver(b, Write(a, ok));
      AllIffApart(Apply(b, Write(a, ok)));
    }
  }
}
