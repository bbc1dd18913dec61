/** At most one SQS message per job, whichever calls fail. */
module Delivery {
  import opened Domain
  import opened Protocol

  /** Rows and messages of one job, in every reachable world. */
  ghost predicate SafeJob(w: World, id: JobId) {
    && (id in w.scheduled ==>
          id in w.jobs && w.jobs[id].state in {Scheduled, Cancelled} && id !in w.retries && NoMessage(w, id))
    && (id in w.retries ==>
          id in w.jobs && w.jobs[id].state in {Retryable, Cancelled} && NoMessage(w, id))
    && (id in w.dlq ==>
          id in w.jobs && w.jobs[id].state == Discarded && NoMessage(w, id))
    && (id !in w.jobs ==> NoMessage(w, id))
    && (id in w.jobs && w.jobs[id].handle.Some? ==> w.jobs[id].handle.value.job == id)
    && (id in w.jobs && w.jobs[id].state == Active ==>
          && w.jobs[id].handle.Some?
          && forall m | m in w.msgs && m.job == id :: m == w.jobs[id].handle.value)
  }

  /** Send numbers are not reused, and no job has two messages. */
  ghost predicate Unique(w: World) {
    && (forall m | m in w.msgs :: m.n < w.nextMsg)
    && (forall m, m' | m in w.msgs && m' in w.msgs && m.job == m'.job :: m == m')
  }

  ghost predicate Safe(w: World) {
    Unique(w) && forall id :: SafeJob(w, id)
  }

  /** The one call whose failure is not tolerated. */
  predicate Tolerated(e: Event) {
    e.op.RetryDeadLetterOp? ==> !e.faults(OnRemoveDeadLetter)
  }

  ghost predicate AgreeOff<V>(a: map<JobId, V>, b: map<JobId, V>, id: JobId) {
    forall j | j != id :: (j in a <==> j in b) && (j in a ==> a[j] == b[j])
  }

  /** An operation on job `id` leaves the rows and messages of every other job alone. */
  ghost predicate Touches(w: World, w': World, id: JobId) {
    && AgreeOff(w.jobs, w'.jobs, id)
    && AgreeOff(w.scheduled, w'.scheduled, id)
    && AgreeOff(w.retries, w'.retries, id)
    && (forall j | j != id :: j in w'.dlq <==> j in w.dlq)
    && (forall m: Message | m.job != id :: m in w'.msgs <==> m in w.msgs)
    && w.nextMsg <= w'.nextMsg
  }

  ghost predicate UniqueFor(w: World, id: JobId) {
    && (forall m | m in w.msgs && m.job == id :: m.n < w.nextMsg)
    && (forall m, m' | m in w.msgs && m' in w.msgs && m.job == id && m'.job == id :: m == m')
  }

  lemma Frame(w: World, w': World, id: JobId)
    requires Safe(w) && Touches(w, w', id) && SafeJob(w', id) && UniqueFor(w', id)
    ensures Safe(w')
  {
    forall j ensures SafeJob(w', j) { assert SafeJob(w, j); }
  }

  lemma PushSafe(w: World, id: JobId, sub: Submission, f: Faults)
    requires Safe(w) && id !in w.jobs
    ensures Touches(w, Push(w, id, sub, f).world, id)
    ensures Safe(Push(w, id, sub, f).world)
  {
    assert SafeJob(w, id);
    Frame(w, Push(w, id, sub, f).world, id);
  }

  lemma DeliverSafe(w: World, m: Message, worker: string, f: Faults)
    requires Safe(w) && m in w.msgs
    ensures Touches(w, Deliver(w, m, worker, f).world, m.job)
    ensures Safe(Deliver(w, m, worker, f).world)
  {
    assert SafeJob(w, m.job);
    Frame(w, Deliver(w, m, worker, f).world, m.job);
  }

  lemma AckSafe(w: World, id: JobId, result: string, f: Faults)
    requires Safe(w)
    ensures Touches(w, Ack(w, id, result, f).world, id)
    ensures Safe(Ack(w, id, result, f).world)
  {
    assert SafeJob(w, id);
    Frame(w, Ack(w, id, result, f).world, id);
  }

  lemma FailSafe(w: World, id: JobId, err: Option<JobError>, backoff: nat, last: bool, f: Faults)
    requires Safe(w) && id in w.jobs && w.jobs[id].state == Active
    ensures Touches(w, Fail(w, id, err, backoff, last, f).world, id)
    ensures Safe(Fail(w, id, err, backoff, last, f).world)
  {
    assert SafeJob(w, id);
    Frame(w, Fail(w, id, err, backoff, last, f).world, id);
  }

  lemma RequeueSafe(w: World, id: JobId, f: Faults)
    requires Safe(w) && id in w.jobs && w.jobs[id].state == Active
    ensures Touches(w, Requeue(w, id, f).world, id)
    ensures Safe(Requeue(w, id, f).world)
  {
    assert SafeJob(w, id);
    Frame(w, Requeue(w, id, f).world, id);
  }

  lemma NackSafe(w: World, id: JobId, err: Option<JobError>, requeue: bool, backoff: nat,
                 matches: (string, string) -> bool, f: Faults)
    requires Safe(w)
    ensures Touches(w, Nack(w, id, err, requeue, backoff, matches, f).world, id)
    ensures Safe(Nack(w, id, err, requeue, backoff, matches, f).world)
  {
    if id in w.jobs && !f(OnGetJob) && w.jobs[id].state == Active {
      if requeue {
        RequeueSafe(w, id, f);
      } else {
        FailSafe(w, id, err, backoff, Exhausted(w.jobs[id], err, matches), f);
      }
    }
  }

  lemma CancelSafe(w: World, id: JobId, f: Faults)
    requires Safe(w)
    ensures Touches(w, Cancel(w, id, f).world, id)
    ensures Safe(Cancel(w, id, f).world)
  {
    assert SafeJob(w, id);
    Frame(w, Cancel(w, id, f).world, id);
  }

  lemma PromoteSafe(w: World, id: JobId, from: Waiting, f: Faults)
    requires Safe(w) && id in WaitingSet(w, from)
    ensures Touches(w, Promote(w, id, from, f).world, id)
    ensures Safe(Promote(w, id, from, f).world)
  {
    assert SafeJob(w, id);
    Frame(w, Promote(w, id, from, f).world, id);
  }

  /** Retrying a dead letter keeps the invariant exactly when its marker is
      removed or nothing is written after the failed removal. */
  lemma RetryDeadLetterSafe(w: World, id: JobId, f: Faults)
    requires Safe(w)
    ensures Touches(w, RetryDeadLetter(w, id, f).world, id)
    ensures Safe(RetryDeadLetter(w, id, f).world) <==>
            (id !in w.dlq || f(OnCheckDeadLetter) || f(OnGetJob)
             || !f(OnRemoveDeadLetter) || (f(OnUpdateState) && f(OnSendMessage)))
  {
    assert SafeJob(w, id);
    var w' := RetryDeadLetter(w, id, f).world;
    if id !in w.dlq || f(OnCheckDeadLetter) || f(OnGetJob) {
    } else if !f(OnRemoveDeadLetter) || (f(OnUpdateState) && f(OnSendMessage)) {
      Frame(w, w', id);
    } else {
      if !f(OnSendMessage) {
        assert NextMessage(w, id, w.jobs[id].queue, w.jobs[id].expiresAt) in w'.msgs;
      }
      assert !SafeJob(w', id);
    }
  }

  /** The job an operation works on. */
  function Subject(op: Op): Option<JobId> {
    match op
    case PushOp(id, _) => Some(id)
    case DeliverOp(m, _) => Some(m.job)
    case AckOp(id, _) => Some(id)
    case NackOp(id, _, _, _, _) => Some(id)
    case CancelOp(id) => Some(id)
    case PromoteOp(id, _) => Some(id)
    case RetryDeadLetterOp(id) => Some(id)
    case DeleteDeadLetterOp(id) => Some(id)
    case LoseOp(m) => Some(m.job)
    case _ => None
  }

  lemma ApplyTouches(w: World, e: Event)
    requires Safe(w) && Enabled(w, e.op) && Subject(e.op).Some?
    ensures Touches(w, Apply(w, e), Subject(e.op).value)
  {
    match e.op
    case PushOp(id, sub) => PushSafe(w, id, sub, e.faults);
    case DeliverOp(m, worker) => DeliverSafe(w, m, worker, e.faults);
    case AckOp(id, result) => AckSafe(w, id, result, e.faults);
    case NackOp(id, err, requeue, backoff, matches) => NackSafe(w, id, err, requeue, backoff, matches, e.faults);
    case CancelOp(id) => CancelSafe(w, id, e.faults);
    case PromoteOp(id, from) => PromoteSafe(w, id, from, e.faults);
    case RetryDeadLetterOp(id) => RetryDeadLetterSafe(w, id, e.faults);
    case _ =>
  }

  lemma BystanderSafe(w: World, e: Event)
    requires Safe(w)
    requires || e.op.DeleteDeadLetterOp? || e.op.PauseOp? || e.op.TickOp?
             || e.op.ReceiveOp? || e.op.ReappearOp? || e.op.LoseOp?
    ensures Safe(Apply(w, e))
  {
    var w' := Apply(w, e);
    forall j ensures SafeJob(w', j) { assert SafeJob(w, j); }
  }

  lemma ApplySafe(w: World, e: Event)
    requires Safe(w) && Enabled(w, e.op) && Tolerated(e)
    ensures Safe(Apply(w, e))
  {
    match e.op
    case PushOp(id, sub) => PushSafe(w, id, sub, e.faults);
    case DeliverOp(m, worker) => DeliverSafe(w, m, worker, e.faults);
    case AckOp(id, result) => AckSafe(w, id, result, e.faults);
    case NackOp(id, err, requeue, backoff, matches) => NackSafe(w, id, err, requeue, backoff, matches, e.faults);
    case CancelOp(id) => CancelSafe(w, id, e.faults);
    case PromoteOp(id, from) => PromoteSafe(w, id, from, e.faults);
    case RetryDeadLetterOp(id) => RetryDeadLetterSafe(w, id, e.faults);
    case _ => BystanderSafe(w, e);
  }

  lemma {:induction false} ExecSafe(w: World, run: seq<Event>)
    requires Safe(w) && Legal(w, run) && forall e | e in run :: Tolerated(e)
    ensures Safe(Exec(w, run))
    decreases |run|
  {
    if run != [] {
      assert run[0] in run;
      ApplySafe(w, run[0]);
      forall e | e in run[1..] ensures Tolerated(e) { assert e in run; }
      ExecSafe(Apply(w, run[0]), run[1..]);
    }
  }

  /** In every run, however its calls fail and whichever messages are lost, a job
      never has two messages; a job waiting in a set or in the dead letter queue
      has none and is in the state that belongs there. */
  lemma AtMostOneMessage(run: seq<Event>, id: JobId)
    requires Legal(INIT, run) && forall e | e in run :: Tolerated(e)
    ensures var w := Exec(INIT, run);
            NoMessage(w, id) || OneMessage(w, id)
    ensures var w := Exec(INIT, run);
            && (id in w.scheduled ==> id in w.jobs && w.jobs[id].state in {Scheduled, Cancelled} && NoMessage(w, id))
            && (id in w.retries ==> id in w.jobs && w.jobs[id].state in {Retryable, Cancelled} && NoMessage(w, id))
            && (id in w.dlq ==> id in w.jobs && w.jobs[id].state == Discarded && NoMessage(w, id))
  {
    ExecSafe(INIT, run);
    assert SafeJob(Exec(INIT, run), id);
  }

  /** The message belongs to a stored job and carries its queue and expiry. */
  ghost predicate AddressedTo(w: World, m: Message) {
    m.job in w.jobs && m.queue == w.jobs[m.job].queue && m.expiresAt == w.jobs[m.job].expiresAt
  }

  ghost predicate Addressed(w: World) {
    forall m | m in w.msgs :: AddressedTo(w, m)
  }

  lemma KeepsAddress(w: World, e: Event, id: JobId)
    requires Safe(w) && Enabled(w, e.op) && id in w.jobs
    ensures var r, w' := w.jobs[id], Apply(w, e);
            id in w'.jobs && w'.jobs[id].queue == r.queue && w'.jobs[id].expiresAt == r.expiresAt
  {
    if Subject(e.op).Some? && Subject(e.op) != Some(id) { ApplyTouches(w, e); }
  }

  /** In every run, however its calls fail, a message is addressed by its record: it
      is in the queue of the job and carries its expiry. */
  lemma {:induction false} MessagesAddressed(w: World, run: seq<Event>)
    requires Safe(w) && Addressed(w) && Legal(w, run) && forall e | e in run :: Tolerated(e)
    ensures Addressed(Exec(w, run))
    decreases |run|
  {
    if run != [] {
      var e, w' := run[0], Apply(w, run[0]);
      assert e in run;
      forall m | m in w'.msgs ensures AddressedTo(w', m) {
        if m in w.msgs {
          assert AddressedTo(w, m);
          KeepsAddress(w, e, m.job);
        }
      }
      ApplySafe(w, e);
      forall e' | e' in run[1..] ensures Tolerated(e') { assert e' in run; }
      MessagesAddressed(w', run[1..]);
    }
  }

  ghost predicate TwoMessages(w: World, id: JobId) {
    exists m, m' :: m in w.msgs && m' in w.msgs && m != m' && m.job == id && m'.job == id
  }

  /** The tolerance is needed: if removing the dead letter marker fails, retrying
      the same dead letter twice leaves two messages. */
  lemma FailedRemovalDuplicates(w: World, id: JobId, e: Event)
    requires Safe(w) && id in w.dlq
    requires e.op == RetryDeadLetterOp(id) && forall s :: e.faults(s) <==> s == OnRemoveDeadLetter
    ensures Legal(w, [e, e]) && TwoMessages(Exec(w, [e, e]), id)
  {
    assert SafeJob(w, id);
    var w1 := Apply(w, e);
    var w2 := Apply(w1, e);
    UnrollShort(w, e, e, e);
    var r := w.jobs[id];
    assert NextMessage(w, id, r.queue, r.expiresAt) in w2.msgs;
    assert NextMessage(w1, id, r.queue, r.expiresAt) in w2.msgs;
  }

  /** So is working on IDs that are still in the set: a promoter does not look
      again, so an ID promoted twice from the same due list is sent twice. */
  lemma StalePromotionDuplicates(w: World, id: JobId, from: Waiting, e: Event)
    requires Safe(w) && Due(w, id, from)
    requires e.op == PromoteOp(id, from) && forall s :: !e.faults(s)
    ensures !Enabled(Apply(w, e), e.op)
    ensures TwoMessages(Exec(w, [e, e]), id)
  {
    assert SafeJob(w, id);
    var w1 := Apply(w, e);
    var w2 := Apply(w1, e);
    UnrollShort(w, e, e, e);
    var r := w.jobs[id];
    assert NextMessage(w, id, r.queue, r.expiresAt) in w2.msgs;
    assert NextMessage(w1, id, r.queue, r.expiresAt) in w2.msgs;
  }

  lemma KeepsWaiting(w: World, e: Event, id: JobId, from: Waiting)
    requires Safe(w) && Enabled(w, e.op) && id in WaitingSet(w, from)
    requires e.op != CancelOp(id) && e.op != PromoteOp(id, from)
    ensures id in WaitingSet(Apply(w, e), from)
    ensures WaitingSet(Apply(w, e), from)[id] == WaitingSet(w, from)[id]
  {
    assert SafeJob(w, id);
    if Subject(e.op).Some? && Subject(e.op) != Some(id) {
      ApplyTouches(w, e);
    }
  }

  lemma {:induction false} ClockAdvances(w: World, run: seq<Event>)
    ensures w.clock <= Exec(w, run).clock
    decreases |run|
  {
    if run != [] { ClockAdvances(Apply(w, run[0]), run[1..]); }
  }

  /** A job leaves its set only by its cancellation or by its promotion from that set, not
      before its due time: the event of the run is found. */
  lemma {:induction false} LeavesWaiting(w: World, run: seq<Event>, id: JobId, from: Waiting) returns (k: nat)
    requires Safe(w) && Legal(w, run) && forall e | e in run :: Tolerated(e)
    requires id in WaitingSet(w, from) && id !in WaitingSet(Exec(w, run), from)
    ensures k < |run|
    ensures run[k].op == CancelOp(id) ||
            (run[k].op == PromoteOp(id, from) && WaitingSet(w, from)[id] <= Exec(w, run[..k]).clock)
    decreases |run|
  {
    var e := run[0];
    assert e in run && forall e' | e' in run[1..] :: e' in run;
    if e.op == CancelOp(id) || e.op == PromoteOp(id, from) {
      k := 0;
      assert run[..0] == [];
    } else {
      KeepsWaiting(w, e, id, from);
      ApplySafe(w, e);
      var j := LeavesWaiting(Apply(w, e), run[1..], id, from);
      k := j + 1;
      assert run[..k][0] == e && run[..k][1..] == run[1..][..j];
    }
  }

  /** No early delivery: however calls fail, a waiting job that is not cancelled
      stays in its set, with its due time and without a message, until that time. */
  lemma {:induction false} NotBeforeDue(w: World, run: seq<Event>, id: JobId, from: Waiting)
    requires Safe(w) && Legal(w, run) && forall e | e in run :: Tolerated(e) && e.op != CancelOp(id)
    requires id in WaitingSet(w, from) && Exec(w, run).clock < WaitingSet(w, from)[id]
    ensures var w' := Exec(w, run);
            id in WaitingSet(w', from) && WaitingSet(w', from)[id] == WaitingSet(w, from)[id] && NoMessage(w', id)
    decreases |run|
  {
    if run == [] {
      assert SafeJob(w, id);
    } else {
      var e := run[0];
      assert e in run;
      ClockAdvances(Apply(w, e), run[1..]);
      assert w.clock <= Apply(w, e).clock by { ClockAdvances(w, [e]); }
      KeepsWaiting(w, e, id, from);
      ApplySafe(w, e);
      forall e' | e' in run[1..] ensures Tolerated(e') && e'.op != CancelOp(id) { assert e' in run; }
      NotBeforeDue(Apply(w, e), run[1..], id, from);
    }
  }
}
