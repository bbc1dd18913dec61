/** Where a job is and how it ends, in fault-free runs. */
module Lifecycle {
  import opened Domain
  import opened Protocol
  import opened Delivery

  /** The job state decides where the job is. */
  ghost predicate SettledJob(w: World, id: JobId)
    requires id in w.jobs
  {
    var r := w.jobs[id];
    && (id in w.scheduled <==> r.state == Scheduled)
    && (id in w.retries <==> r.state == Retryable)
    && (id in w.dlq ==> r.state == Discarded && r.handle.None?)
    && match r.state
       case Scheduled => NoMessage(w, id) && r.handle.None?
       case Available => !NoMessage(w, id) && r.handle.None?
       case Active => r.handle.Some? && r.handle.value in w.msgs
       case Retryable => NoMessage(w, id) && r.handle.None?
       case Completed => NoMessage(w, id)
       case Cancelled => r.handle.None?
       case Discarded => NoMessage(w, id)
  }

  ghost predicate Settled(w: World) {
    Safe(w) && forall id | id in w.jobs :: SettledJob(w, id)
  }

  lemma SettledFrame(w: World, w': World, id: JobId)
    requires Settled(w) && Safe(w') && Touches(w, w', id)
    requires id in w'.jobs ==> SettledJob(w', id)
    ensures Settled(w')
  {
    forall j | j in w'.jobs ensures SettledJob(w', j) {
      if j != id {
        assert SettledJob(w, j) && SafeJob(w, j);
      }
    }
  }

  lemma PushSettles(w: World, e: Event)
    requires Settled(w) && Enabled(w, e.op) && FaultFree(e) && e.op.PushOp?
    ensures Settled(Apply(w, e))
  {
    var id, sub, w' := e.op.id, e.op.sub, Apply(w, e);
    PushSafe(w, id, sub, e.faults);
    assert SafeJob(w, id);
    if !Postponed(sub, w.clock) {
      assert NextMessage(w, id, sub.queue, sub.expiresAt) in w'.msgs;
    }
    SettledFrame(w, w', id);
  }

  lemma DeliverSettles(w: World, e: Event)
    requires Settled(w) && Enabled(w, e.op) && FaultFree(e) && e.op.DeliverOp?
    ensures Settled(Apply(w, e))
  {
    var m, w' := e.op.m, Apply(w, e);
    DeliverSafe(w, m, e.op.worker, e.faults);
    assert SafeJob(w, m.job) && SettledJob(w, m.job);
    SettledFrame(w, w', m.job);
  }

  lemma AckSettles(w: World, e: Event)
    requires Settled(w) && FaultFree(e) && e.op.AckOp?
    ensures Settled(Apply(w, e))
  {
    var id := e.op.id;
    AckSafe(w, id, e.op.result, e.faults);
    assert SafeJob(w, id) && (id in w.jobs ==> SettledJob(w, id));
    SettledFrame(w, Apply(w, e), id);
  }

  lemma NackSettles(w: World, e: Event)
    requires Settled(w) && FaultFree(e) && e.op.NackOp?
    ensures Settled(Apply(w, e))
  {
    var id, w' := e.op.id, Apply(w, e);
    NackSafe(w, id, e.op.err, e.op.requeue, e.op.backoff, e.op.matches, e.faults);
    assert SafeJob(w, id) && (id in w.jobs ==> SettledJob(w, id));
    if id in w.jobs && w.jobs[id].state == Active && e.op.requeue {
      assert w.jobs[id].handle.value in w'.msgs;
    }
    SettledFrame(w, w', id);
  }

  lemma CancelSettles(w: World, e: Event)
    requires Settled(w) && FaultFree(e) && e.op.CancelOp?
    ensures Settled(Apply(w, e))
  {
    var id := e.op.id;
    CancelSafe(w, id, e.faults);
    assert SafeJob(w, id) && (id in w.jobs ==> SettledJob(w, id));
    SettledFrame(w, Apply(w, e), id);
  }

  lemma PromoteSettles(w: World, e: Event)
    requires Settled(w) && Enabled(w, e.op) && FaultFree(e) && e.op.PromoteOp?
    ensures Settled(Apply(w, e))
  {
    var id, w' := e.op.id, Apply(w, e);
    PromoteSafe(w, id, e.op.from, e.faults);
    assert SafeJob(w, id) && (id in w.jobs ==> SettledJob(w, id));
    assert NextMessage(w, id, w.jobs[id].queue, w.jobs[id].expiresAt) in w'.msgs;
    SettledFrame(w, w', id);
  }

  lemma RetryDeadLetterSettles(w: World, e: Event)
    requires Settled(w) && FaultFree(e) && e.op.RetryDeadLetterOp?
    ensures Settled(Apply(w, e))
  {
    var id, w' := e.op.id, Apply(w, e);
    RetryDeadLetterSafe(w, id, e.faults);
    assert SafeJob(w, id) && (id in w.jobs ==> SettledJob(w, id));
    if id in w.dlq {
      assert NextMessage(w, id, w.jobs[id].queue, w.jobs[id].expiresAt) in w'.msgs;
    }
    SettledFrame(w, w', id);
  }

  lemma BystanderSettles(w: World, e: Event)
    requires Settled(w) && FaultFree(e)
    requires e.op.DeleteDeadLetterOp? || e.op.PauseOp? || e.op.TickOp? || e.op.ReceiveOp? || e.op.ReappearOp?
    ensures Settled(Apply(w, e))
  {
    BystanderSafe(w, e);
    var w' := Apply(w, e);
    forall j | j in w'.jobs ensures SettledJob(w', j) { assert SettledJob(w, j); }
  }

  lemma ApplySettles(w: World, e: Event)
    requires Settled(w) && Enabled(w, e.op) && FaultFree(e)
    ensures Settled(Apply(w, e))
  {
    match e.op
    case PushOp(_, _) => PushSettles(w, e);
    case DeliverOp(_, _) => DeliverSettles(w, e);
    case AckOp(_, _) => AckSettles(w, e);
    case NackOp(_, _, _, _, _) => NackSettles(w, e);
    case CancelOp(_) => CancelSettles(w, e);
    case PromoteOp(_, _) => PromoteSettles(w, e);
    case RetryDeadLetterOp(_) => RetryDeadLetterSettles(w, e);
    case _ => BystanderSettles(w, e);
  }

  lemma {:induction false} ExecSettles(w: World, run: seq<Event>)
    requires Settled(w) && Legal(w, run) && forall e | e in run :: FaultFree(e)
    ensures Settled(Exec(w, run))
    decreases |run|
  {
    if run != [] {
      assert run[0] in run;
      ApplySettles(w, run[0]);
      forall e | e in run[1..] ensures FaultFree(e) { assert e in run; }
      ExecSettles(Apply(w, run[0]), run[1..]);
    }
  }

  /** In every fault-free run each job is in exactly one place. */
  lemma ExactlyOnePlace(run: seq<Event>, id: JobId)
    requires Legal(INIT, run) && forall e | e in run :: FaultFree(e)
    ensures var w := Exec(INIT, run);
            && (id in w.scheduled <==> id in w.jobs && w.jobs[id].state == Scheduled)
            && (id in w.retries <==> id in w.jobs && w.jobs[id].state == Retryable)
            && (id !in w.jobs ==> NoMessage(w, id))
            && (id in w.jobs ==>
                  match w.jobs[id].state
                  case Available => OneMessage(w, id)
                  case Active => OneMessage(w, id) && w.jobs[id].handle.Some? && w.jobs[id].handle.value in w.msgs
                  case Cancelled => NoMessage(w, id) || OneMessage(w, id)
                  case _ => NoMessage(w, id))
  {
    var w := Exec(INIT, run);
    ExecSettles(INIT, run);
    assert SafeJob(w, id) && (id in w.jobs ==> SettledJob(w, id));
  }

  // ---------- terminal states ----------

  lemma KeepsTerminal(w: World, e: Event, id: JobId)
    requires Settled(w) && Enabled(w, e.op) && FaultFree(e) && id in w.jobs
    ensures var w' := Apply(w, e);
            && id in w'.jobs
            && (w.jobs[id].state == Completed ==> w'.jobs[id] == w.jobs[id])
            && (w.jobs[id].state == Discarded && e.op != RetryDeadLetterOp(id) ==> w'.jobs[id] == w.jobs[id])
            && (w.jobs[id].state == Cancelled && NoMessage(w, id) ==>
                  w'.jobs[id] == w.jobs[id] && NoMessage(w', id))
  {
    assert SettledJob(w, id) && SafeJob(w, id);
    if Subject(e.op).Some? && Subject(e.op) != Some(id) {
      ApplyTouches(w, e);
    }
  }

  /** A completed record never changes again; a discarded one only by a dead
      letter retry of that job. */
  lemma {:induction false} FinalStates(w: World, run: seq<Event>, id: JobId)
    requires Settled(w) && Legal(w, run) && id in w.jobs && forall e | e in run :: FaultFree(e)
    ensures id in Exec(w, run).jobs
    ensures w.jobs[id].state == Completed ==> Exec(w, run).jobs[id] == w.jobs[id]
    ensures w.jobs[id].state == Discarded && (forall e | e in run :: e.op != RetryDeadLetterOp(id)) ==>
              Exec(w, run).jobs[id] == w.jobs[id]
    decreases |run|
  {
    if run != [] {
      KeepsTerminal(w, run[0], id);
      ApplySettles(w, run[0]);
      assert run[0] in run && forall e | e in run[1..] :: e in run;
      FinalStates(Apply(w, run[0]), run[1..], id);
    }
  }

  /** Cancelling removes the message of every job but an available one, which has
      no stored receipt handle. */
  lemma CancelLeavesMessage(w: World, id: JobId, e: Event)
    requires Settled(w) && FaultFree(e) && e.op == CancelOp(id)
    requires id in w.jobs && !w.jobs[id].state.Terminal()
    ensures Apply(w, e).jobs[id].state == Cancelled
    ensures NoMessage(Apply(w, e), id) <==> w.jobs[id].state != Available
  {
    assert SettledJob(w, id) && SafeJob(w, id);
  }

  /** The leftover message brings a job cancelled while available back to life. */
  lemma CancelledComesBack(w: World, m: Message, cancel: Event, receive: Event, deliver: Event)
    requires Settled(w) && m in w.msgs && m !in w.inflight && !Expired(m, w.clock)
    requires m.job in w.jobs && w.jobs[m.job].state == Available
    requires cancel.op == CancelOp(m.job) && receive.op == ReceiveOp({m}) && deliver.op.DeliverOp? && deliver.op.m == m
    requires FaultFree(cancel) && FaultFree(receive) && FaultFree(deliver)
    ensures Legal(w, [cancel, receive, deliver])
    ensures Apply(w, cancel).jobs[m.job].state == Cancelled
    ensures var w' := Exec(w, [cancel, receive, deliver]);
            m.job in w'.jobs && w'.jobs[m.job].state == Active
  {
    assert SettledJob(w, m.job);
    UnrollShort(w, cancel, receive, deliver);
  }

  /** No event cancels a job that is available at that moment. */
  predicate Careful(w: World, run: seq<Event>)
    decreases |run|
  {
    run == [] ||
    ((run[0].op.CancelOp? && run[0].op.id in w.jobs ==> w.jobs[run[0].op.id].state != Available)
     && Careful(Apply(w, run[0]), run[1..]))
  }

  ghost predicate Buried(w: World) {
    forall id | id in w.jobs && w.jobs[id].state == Cancelled :: NoMessage(w, id)
  }

  lemma OnlyCancelCancels(w: World, e: Event, id: JobId)
    requires Safe(w) && Enabled(w, e.op) && e.op != CancelOp(id)
    requires id in w.jobs ==> w.jobs[id].state != Cancelled
    ensures var w' := Apply(w, e); id in w'.jobs ==> w'.jobs[id].state != Cancelled
  {
    if Subject(e.op).Some? && Subject(e.op) != Some(id) {
      ApplyTouches(w, e);
    }
  }

  lemma KeepsBuried(w: World, e: Event)
    requires Settled(w) && Buried(w) && Enabled(w, e.op) && FaultFree(e) && Careful(w, [e])
    ensures Buried(Apply(w, e))
  {
    var w' := Apply(w, e);
    forall id | id in w'.jobs && w'.jobs[id].state == Cancelled ensures NoMessage(w', id) {
      if id in w.jobs && w.jobs[id].state == Cancelled {
        KeepsTerminal(w, e, id);
      } else if e.op == CancelOp(id) {
        CancelLeavesMessage(w, id, e);
      } else {
        OnlyCancelCancels(w, e, id);
      }
    }
  }

  /** When no job is cancelled while available, `cancelled` is final too. */
  lemma {:induction false} CancelledIsFinal(w: World, run: seq<Event>, id: JobId)
    requires Settled(w) && Buried(w) && Legal(w, run) && Careful(w, run) && forall e | e in run :: FaultFree(e)
    ensures Buried(Exec(w, run))
    ensures id in w.jobs && w.jobs[id].state == Cancelled ==>
              id in Exec(w, run).jobs && Exec(w, run).jobs[id] == w.jobs[id]
    decreases |run|
  {
    if run != [] {
      assert Careful(w, [run[0]]);
      if id in w.jobs && w.jobs[id].state == Cancelled { KeepsTerminal(w, run[0], id); }
      KeepsBuried(w, run[0]);
      ApplySettles(w, run[0]);
      CancelledIsFinal(Apply(w, run[0]), run[1..], id);
    }
  }

  // ---------- queue counters ----------

  function CompletedJobs(w: World, q: QueueName): set<JobId> {
    set id | id in w.jobs && w.jobs[id].queue == q && w.jobs[id].state == Completed
  }

  ghost predicate Exact(w: World) {
    forall q :: Counter(w.completed, q) == |CompletedJobs(w, q)|
  }

  /** The event completes job `id`. */
  predicate Completes(w: World, e: Event, id: JobId) {
    e.op.AckOp? && e.op.id == id && id in w.jobs && w.jobs[id].state == Active
  }

  /** The jobs of queue `q` that the event completes: at most one. */
  function Newly(w: World, e: Event, q: QueueName): (s: set<JobId>)
    ensures s !! CompletedJobs(w, q)
  {
    if e.op.AckOp? && Completes(w, e, e.op.id) && w.jobs[e.op.id].queue == q then {e.op.id} else {}
  }

  lemma OnlyAckCompletes(w: World, e: Event, id: JobId)
    requires Settled(w) && Enabled(w, e.op) && FaultFree(e)
    ensures var w' := Apply(w, e);
            id in w'.jobs && w'.jobs[id].state == Completed <==>
              Completes(w, e, id) || (id in w.jobs && w.jobs[id].state == Completed)
  {
    if Subject(e.op).Some? && Subject(e.op) != Some(id) {
      ApplyTouches(w, e);
    } else if id in w.jobs && w.jobs[id].state == Completed {
      KeepsTerminal(w, e, id);
    }
  }

  lemma NewlyCompleted(w: World, e: Event, q: QueueName)
    requires Settled(w) && Enabled(w, e.op) && FaultFree(e)
    ensures CompletedJobs(Apply(w, e), q) == CompletedJobs(w, q) + Newly(w, e, q)
  {
    var w' := Apply(w, e);
    forall id ensures id in CompletedJobs(w', q) <==> id in CompletedJobs(w, q) + Newly(w, e, q) {
      OnlyAckCompletes(w, e, id);
      if id in w.jobs { KeepsAddress(w, e, id); }
    }
  }

  lemma CounterMoves(w: World, e: Event, q: QueueName)
    requires FaultFree(e)
    ensures Counter(Apply(w, e).completed, q) == Counter(w.completed, q) + |Newly(w, e, q)|
  {}

  lemma KeepsExact(w: World, e: Event)
    requires Settled(w) && Exact(w) && Enabled(w, e.op) && FaultFree(e)
    ensures Exact(Apply(w, e))
  {
    forall q ensures Counter(Apply(w, e).completed, q) == |CompletedJobs(Apply(w, e), q)| {
      NewlyCompleted(w, e, q);
      CounterMoves(w, e, q);
    }
  }

  /** The stored completed counter of every queue is the number of its completed jobs. */
  lemma {:induction false} CountersExact(w: World, run: seq<Event>)
    requires Settled(w) && Exact(w) && Legal(w, run) && forall e | e in run :: FaultFree(e)
    ensures Exact(Exec(w, run))
    decreases |run|
  {
    if run != [] {
      KeepsExact(w, run[0]);
      ApplySettles(w, run[0]);
      CountersExact(Apply(w, run[0]), run[1..]);
    }
  }
}
