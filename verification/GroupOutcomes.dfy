/** How group and batch workflows end, whatever failed. */
module GroupOutcomes {
  import opened Counting
  import opened Groups

  /** The stored state once the call that accounts for all members has closed. */
  function Final(g: Group): WorkflowState {
    if g.h.unclosed then Running else if g.bad == {} then Finished else Broken
  }

  /** The callbacks fired once that call has ended. */
  function FinalFired(g: Group): seq<Callback> {
    if g.batch && !g.h.silent then Fired(g.cb, g.bad != {}) else []
  }

  ghost predicate StateIs(g: Group, s: WorkflowState) {
    !g.h.cancelled ==> g.state == s
  }

  /** How far the call that accounts for all members has got. */
  ghost predicate Progress(g: Group, p: Phase) {
    match p
    case Read(_, _) => false
    case Last(_, _) => g.fired == [] && !g.h.unclosed && !g.h.silent && StateIs(g, Running)
    case Closing(_) => g.batch && g.fired == [] && !g.h.silent && StateIs(g, Final(g))
    case Ended => g.fired == FinalFired(g) && StateIs(g, Final(g))
  }

  /** Before any call accounts for all members nothing is closed or fired; afterwards no
      write before it can have failed or been lost. */
  ghost predicate OnTrack(g: Group) {
    if g.finishers == {} then g.fired == [] && !g.h.unclosed && !g.h.silent && StateIs(g, Running)
    else && !g.h.lost && g.h.dropped <= g.finishers
         && forall a | a in g.finishers :: a in g.phases && Progress(g, g.phases[a])
  }

  /** A write that accounts for everybody has read what is stored, and nothing was lost
      or failed before it. */
  lemma LastIsExact(g: Group, a: nat, ok: bool)
    requires NeverOver(g) && Once(g) && ExactUntilLost(g) && Enabled(g, Write(a, ok))
    requires Apply(g, Write(a, ok)).phases[a].Last?
    ensures !Short(g) && !Apply(g, Write(a, ok)).h.lost
  {
    assert ReaderOk(g, g.phases[a]) && ReaderBounded(g, a, g.phases[a]);
    CallsBounded(g);
    SubsetSize(g.written + {a}, g.phases.Keys);
    assert |g.written + {a}| == |g.written| + 1;
  }

  lemma EarlyOnTrack(g: Group, e: Step)
    requires NeverOver(g) && OneFinisher(g) && OnTrack(g) && Enabled(g, e) && (e.Begin? || e.Write?)
    requires Once(g) && g.finishers == {} && ExactUntilLost(g)
    ensures OnTrack(Apply(g, e))
  {
    if e.Write? && Apply(g, e).phases[e.a].Last? { LastIsExact(g, e.a, e.ok); }
  }

  lemma CancelOnTrack(g: Group, e: Step)
    requires OnTrack(g) && Enabled(g, e) && (e.CancelRead? || e.CancelWrite?)
    ensures OnTrack(Apply(g, e))
  {
    var g' := Apply(g, e);
    forall a | a in g'.finishers ensures a in g'.phases && Progress(g', g'.phases[a]) {
      assert a in g.phases && Progress(g, g.phases[a]);
    }
  }

  /** The call that accounts for all members goes on. */
  lemma FinisherOnTrack(g: Group, e: Step)
    requires NeverOver(g) && OneFinisher(g) && OnTrack(g) && Enabled(g, e) && (e.Close? || e.Fire? || e.Stop?)
    requires e.a in g.finishers
    ensures OnTrack(Apply(g, e))
  {
    assert LateOk(g, e.a, g.phases[e.a]) && Progress(g, g.phases[e.a]) && g.finishers == {e.a};
    assert g.written * g.bad == g.bad;
    assert Progress(Apply(g, e), Apply(g, e).phases[e.a]);
  }

  lemma LateOnTrack(g: Group, e: Step)
    requires NeverOver(g) && OneFinisher(g) && OnTrack(g) && Enabled(g, e) && (e.Close? || e.Fire? || e.Stop?)
    ensures OnTrack(Apply(g, e))
  {
    if e.a in g.finishers {
      FinisherOnTrack(g, e);
    } else {
      assert LateOk(g, e.a, g.phases[e.a]) && e.Stop?;
      var g' := Apply(g, e);
      forall a | a in g'.finishers ensures a in g'.phases && Progress(g', g'.phases[a]) {
        assert a in g.phases && Progress(g, g.phases[a]);
      }
    }
  }

  lemma KeepsOnTrack(g: Group, e: Step)
    requires NeverOver(g) && OneFinisher(g) && OnTrack(g) && ExactUntilLost(g) && Enabled(g, e)
    requires Once(g) && Once(Apply(g, e))
    ensures OnTrack(Apply(g, e))
  {
    if e.Begin? || e.Write? {
      NoLateBegin(g, e);
      EarlyOnTrack(g, e);
    } else if e.CancelRead? || e.CancelWrite? {
      CancelOnTrack(g, e);
    } else {
      LateOnTrack(g, e);
    }
  }

  lemma {:induction false} RunOnTrack(g: Group, run: seq<Step>)
    requires NeverOver(g) && OneFinisher(g) && OnTrack(g) && ExactUntilLost(g) && Legal(g, run) && Once(Exec(g, run))
    ensures OnTrack(Exec(g, run))
    decreases |run|
  {
    if run != [] {
      var e, g1 := run[0], Apply(g, run[0]);
      OnceBefore(g, run);
      KeepsNeverOver(g, e);
      OnceBefore(g1, run[1..]);
      KeepsOnTrack(g, e);
      KeepsOneFinisher(g, e);
      KeepsExact(g, e);
      RunOnTrack(g1, run[1..]);
    }
  }

  lemma AllReached(g: Group, run: seq<Step>)
    requires Created(g) && g.total > 0 && Legal(g, run) && Once(Exec(g, run))
    ensures var g' := Exec(g, run); NeverOver(g') && OneFinisher(g') && OnTrack(g') && ExactUntilLost(g')
  {
    RunKeeps(g, run);
    RunOnTrack(g, run);
    RunKeepsExact(g, run);
  }

  /** Some call accounts for all members: everybody has advanced, no write was lost, and at
      most the write of that very call failed. */
  ghost predicate Accounted(g: Group) {
    Everyone(g) && !g.h.lost && g.h.dropped <= g.finishers
  }

  lemma AccountedIff(g: Group)
    requires NeverOver(g) && OneFinisher(g) && OnTrack(g) && ExactUntilLost(g) && Once(g)
    ensures g.finishers != {} <==> Accounted(g)
  {
    if g.finishers != {} {
      AllWritten(g);
    } else if Everyone(g) {
      WhoSize(g.of, g.written);
    }
  }

  /** Once all calls have ended, if no member advanced twice, whatever failed, stopped or
      interleaved: the workflow has the final state of its members if and only if some
      call accounted for all of them and its last update was stored, and otherwise is
      still running, unless a cancellation was stored; and a batch has fired exactly the
      callbacks of that outcome if and only if that call went on to its end. */
  lemma FinalOutcome(g: Group, run: seq<Step>)
    requires Created(g) && g.total > 0 && Legal(g, run) && Once(Exec(g, run)) && AllEnded(Exec(g, run))
    ensures var g' := Exec(g, run);
            && g'.fired == (if Accounted(g') && g.batch && !g'.h.silent then Fired(g.cb, g'.bad != {}) else [])
            && (!g'.h.cancelled ==>
                  g'.state == if !Accounted(g') || g'.h.unclosed then Running
                              else if g'.bad == {} then Finished else Broken)
  {
    AllReached(g, run);
    RunGrows(g, run);
    var g' := Exec(g, run);
    AccountedIff(g');
    if g'.finishers != {} {
      var a :| a in g'.finishers;
      assert Progress(g', g'.phases[a]);
    }
  }

  /** Which callbacks that are: when the workflow ended for good and the call went on,
      on_complete first, on_success if no member failed and on_failure if one did, each
      once and only if it is defined; and otherwise none. */
  lemma FinalCallbacks(g: Group, run: seq<Step>)
    requires Created(g) && g.total > 0 && Legal(g, run) && Once(Exec(g, run)) && AllEnded(Exec(g, run))
    ensures var g' := Exec(g, run);
            Announced(g'.fired, g.cb, Accounted(g') && g.batch && !g'.h.silent, g'.bad == {})
  {
    FinalOutcome(g, run);
    FiredAnnounces(g.cb, Exec(g, run).bad != {});
  }
}
