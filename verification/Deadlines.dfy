/** A scheduled or failed job waits until its time. */
module Deadlines {
  import opened Domain
  import opened Protocol
  import opened Delivery

  /** Job `id` has no message and, as far as it is in set `from`, is due at `due`. */
  ghost predicate Waits(w: World, id: JobId, from: Waiting, due: int) {
    && NoMessage(w, id) && id !in w.dlq
    && (id in w.jobs ==> w.jobs[id].state in {if from.InScheduled? then Scheduled else Retryable, Cancelled})
    && (if from.InScheduled? then id !in w.retries else id !in w.scheduled)
    && (id in WaitingSet(w, from) ==> WaitingSet(w, from)[id] == due)
  }

  predicate Pushes(e: Event, id: JobId) {
    e.op.PushOp? && e.op.id == id
  }

  predicate Promotes(e: Event, id: JobId) {
    e.op.PromoteOp? && e.op.id == id
  }

  lemma OthersKeepWaits(w: World, e: Event, id: JobId, from: Waiting, due: int)
    requires Safe(w) && Waits(w, id, from, due) && Enabled(w, e.op)
    requires Subject(e.op).Some? && Subject(e.op) != Some(id)
    ensures Waits(Apply(w, e), id, from, due)
  {
    ApplyTouches(w, e);
  }

  lemma OwnKeepsWaits(w: World, e: Event, id: JobId, from: Waiting, due: int)
    requires Safe(w) && Waits(w, id, from, due) && Enabled(w, e.op) && !Pushes(e, id) && !Promotes(e, id)
    requires Subject(e.op) == None || Subject(e.op) == Some(id)
    ensures Waits(Apply(w, e), id, from, due)
  {
    if e.op.CancelOp? {
      CancelKeepsWaits(w, e, id, from, due);
    } else if Subject(e.op).Some? && !e.op.LoseOp? {
      Idle(w, e, id, from, due);
    }
  }

  lemma CancelKeepsWaits(w: World, e: Event, id: JobId, from: Waiting, due: int)
    requires Safe(w) && Waits(w, id, from, due) && e.op == CancelOp(id)
    ensures Waits(Apply(w, e), id, from, due)
  {}

  /** No other operation does anything to a job that waits. */
  lemma Idle(w: World, e: Event, id: JobId, from: Waiting, due: int)
    requires Safe(w) && Waits(w, id, from, due) && Enabled(w, e.op) && !Pushes(e, id) && !Promotes(e, id)
    requires Subject(e.op) == Some(id) && !e.op.CancelOp? && !e.op.LoseOp?
    ensures Apply(w, e) == w
  {
    assert SafeJob(w, id);
  }

  lemma KeepsWaits(w: World, e: Event, id: JobId, from: Waiting, due: int)
    requires Safe(w) && Waits(w, id, from, due) && Enabled(w, e.op) && !Pushes(e, id)
    requires w.clock < due || !Promotes(e, id)
    ensures Waits(Apply(w, e), id, from, due) && !Promotes(e, id)
  {
    if Subject(e.op).Some? && Subject(e.op) != Some(id) {
      OthersKeepWaits(w, e, id, from, due);
    } else {
      OwnKeepsWaits(w, e, id, from, due);
    }
  }

  lemma {:induction false} StaysWaiting(w: World, run: seq<Event>, id: JobId, from: Waiting, due: int)
    requires Safe(w) && Waits(w, id, from, due) && Legal(w, run)
    requires forall e | e in run :: Tolerated(e) && !Pushes(e, id)
    requires Exec(w, run).clock < due || forall e | e in run :: !Promotes(e, id)
    ensures Waits(Exec(w, run), id, from, due) && forall e | e in run :: !Promotes(e, id)
    decreases |run|
  {
    if run != [] {
      var e := run[0];
      assert e in run && forall e' | e' in run[1..] :: e' in run;
      ClockAdvances(w, run);
      KeepsWaits(w, e, id, from, due);
      ApplySafe(w, e);
      StaysWaiting(Apply(w, e), run[1..], id, from, due);
      assert forall e' | e' in run :: e' == e || e' in run[1..];
    }
  }

  /** Only a cancellation or a promotion takes the job out of its set. */
  lemma {:induction false} StaysInSet(w: World, run: seq<Event>, id: JobId, from: Waiting)
    requires Safe(w) && Legal(w, run) && id in WaitingSet(w, from)
    requires forall e | e in run :: Tolerated(e) && e.op != CancelOp(id) && !Promotes(e, id)
    ensures id in WaitingSet(Exec(w, run), from)
    decreases |run|
  {
    if run != [] {
      var e := run[0];
      assert e in run && forall e' | e' in run[1..] :: e' in run;
      KeepsWaiting(w, e, id, from);
      ApplySafe(w, e);
      StaysInSet(Apply(w, e), run[1..], id, from);
    }
  }

  /** A run that is cut at one of its events. */
  lemma Cut(before: seq<Event>, e: Event, after: seq<Event>)
    requires Legal(INIT, before + [e] + after) && forall x | x in before + [e] + after :: Tolerated(x)
    ensures var w := Exec(INIT, before);
            && Legal(INIT, before) && Safe(w) && Enabled(w, e.op) && Safe(Apply(w, e)) && Legal(Apply(w, e), after)
            && Exec(INIT, before + [e] + after) == Exec(Apply(w, e), after)
            && (forall x | x in after :: Tolerated(x))
  {
    assert before + [e] + after == before + ([e] + after);
    ExecConcat(INIT, before, [e] + after);
    Unroll(Exec(INIT, before), e, after);
    assert forall x | x in before :: x in before + [e] + after;
    assert forall x | x in after :: x in before + [e] + after;
    assert e in before + [e] + after;
    ExecSafe(INIT, before);
    ApplySafe(Exec(INIT, before), e);
  }

  lemma PushWaits(w: World, push: Event, id: JobId, t: int)
    requires Safe(w) && Enabled(w, push.op) && Pushes(push, id) && push.op.sub.scheduledAt == Some(t) && w.clock < t
    ensures Waits(Apply(w, push), id, InScheduled, t)
    ensures !push.faults(OnPutJob) && !push.faults(OnAddScheduled) ==> id in Apply(w, push).scheduled
  {
    assert SafeJob(w, id);
  }

  /** A job that is pushed for a later time `t` has no message and is not promoted before
      `t`, whichever calls fail and even if it is cancelled; as long as it waits it is due
      from `t` on; and unless it is cancelled it does wait, if its record and its marker
      could be stored. */
  lemma NotBeforeScheduled(before: seq<Event>, push: Event, after: seq<Event>, id: JobId, t: int)
    requires Legal(INIT, before + [push] + after) && forall e | e in before + [push] + after :: Tolerated(e)
    requires Pushes(push, id) && push.op.sub.scheduledAt == Some(t) && Exec(INIT, before).clock < t
    requires forall e | e in after :: !Pushes(e, id)
    ensures var w := Exec(INIT, before + [push] + after);
            && (w.clock < t ==> NoMessage(w, id) && forall e | e in after :: !Promotes(e, id))
            && ((forall e | e in after :: !Promotes(e, id)) && id in w.scheduled ==>
                  w.scheduled[id] == t && (Due(w, id, InScheduled) <==> t <= w.clock))
            && (!push.faults(OnPutJob) && !push.faults(OnAddScheduled) ==>
                  (forall e | e in after :: e.op != CancelOp(id) && !Promotes(e, id)) ==> id in w.scheduled)
  {
    Cut(before, push, after);
    var w0 := Exec(INIT, before);
    var w1 := Apply(w0, push);
    PushWaits(w0, push, id, t);
    var w := Exec(w1, after);
    if w.clock < t || forall e | e in after :: !Promotes(e, id) { StaysWaiting(w1, after, id, InScheduled, t); }
    if (forall e | e in after :: e.op != CancelOp(id) && !Promotes(e, id)) && id in w1.scheduled {
      StaysInSet(w1, after, id, InScheduled);
    }
  }

  lemma NackWaits(w: World, nack: Event, id: JobId)
    requires Safe(w) && nack.op.NackOp? && nack.op.id == id && id in w.jobs && w.jobs[id].state == Active
    requires id in Apply(w, nack).jobs && Apply(w, nack).jobs[id].state == Retryable
    ensures Waits(Apply(w, nack), id, InRetry, w.clock + nack.op.backoff)
    ensures !nack.faults(OnAddRetry) ==> id in Apply(w, nack).retries
  {
    assert SafeJob(w, id);
    NackSafe(w, id, nack.op.err, nack.op.requeue, nack.op.backoff, nack.op.matches, nack.faults);
    assert SafeJob(Apply(w, nack), id);
  }

  /** An active job that a Nack makes retryable has no message and is not promoted before
      the clock of the Nack plus the backoff; as long as it waits it is due from then on;
      and unless it is cancelled it does wait, if its marker could be stored. */
  lemma NotBeforeBackoff(before: seq<Event>, nack: Event, after: seq<Event>, id: JobId)
    requires Legal(INIT, before + [nack] + after) && forall e | e in before + [nack] + after :: Tolerated(e)
    requires nack.op.NackOp? && nack.op.id == id
    requires var w := Exec(INIT, before);
             && id in w.jobs && w.jobs[id].state == Active
             && id in Apply(w, nack).jobs && Apply(w, nack).jobs[id].state == Retryable
    ensures var w, due := Exec(INIT, before + [nack] + after), Exec(INIT, before).clock + nack.op.backoff;
            && (w.clock < due ==> NoMessage(w, id) && forall e | e in after :: !Promotes(e, id))
            && ((forall e | e in after :: !Promotes(e, id)) && id in w.retries ==>
                  w.retries[id] == due && (Due(w, id, InRetry) <==> due <= w.clock))
            && (!nack.faults(OnAddRetry) ==>
                  (forall e | e in after :: e.op != CancelOp(id) && !Promotes(e, id)) ==> id in w.retries)
  {
    Cut(before, nack, after);
    var w0 := Exec(INIT, before);
    var w1, due := Apply(w0, nack), w0.clock + nack.op.backoff;
    NackWaits(w0, nack, id);
    NeverPushedAgain(w1, after, id);
    var w := Exec(w1, after);
    if w.clock < due || forall e | e in after :: !Promotes(e, id) { StaysWaiting(w1, after, id, InRetry, due); }
    if (forall e | e in after :: e.op != CancelOp(id) && !Promotes(e, id)) && id in w1.retries {
      StaysInSet(w1, after, id, InRetry);
    }
  }

  /** IDs of stored jobs are not pushed again. */
  lemma {:induction false} NeverPushedAgain(w: World, run: seq<Event>, id: JobId)
    requires Safe(w) && Legal(w, run) && id in w.jobs && forall e | e in run :: Tolerated(e)
    ensures forall e | e in run :: !Pushes(e, id)
    decreases |run|
  {
    if run != [] {
      var e := run[0];
      assert e in run && forall e' | e' in run[1..] :: e' in run;
      KeepsAddress(w, e, id);
      ApplySafe(w, e);
      NeverPushedAgain(Apply(w, e), run[1..], id);
      assert forall e' | e' in run :: e' == e || e' in run[1..];
    }
  }
}
