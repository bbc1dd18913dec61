/** When a job ends, and how often that can happen. */
module Endings {
  import opened Domain
  import opened Protocol
  import opened Delivery
  import opened Lifecycle

  /** The discard of a failed job gets as far as advancing the workflow. */
  predicate Discards(r: Job, f: Faults) {
    && (r.handle.Some? ==> !f(OnDeleteMessage)) && !f(OnUpdateState)
    && (DeadLetters(r) ==> !f(OnAddDeadLetter))
  }

  /** The event ends job `id`: an Ack that stored `completed` or a Nack that stored
      `discarded` and, if asked to, the dead letter marker. */
  predicate Ends(w: World, e: Event, id: JobId) {
    && id in w.jobs && !e.faults(OnGetJob) && w.jobs[id].state == Active
    && match e.op
       case AckOp(j, _) => j == id && !e.faults(OnUpdateState)
       case NackOp(j, err, requeue, _, matches) =>
         j == id && !requeue && Exhausted(w.jobs[id], err, matches) && Discards(w.jobs[id], e.faults)
       case _ => false
  }

  function Endings(w: World, run: seq<Event>, id: JobId): nat
    decreases |run|
  {
    if run == [] then 0 else (if Ends(w, run[0], id) then 1 else 0) + Endings(Apply(w, run[0]), run[1..], id)
  }

  /** An ending leaves the job completed or discarded. Other ways into a terminal state
      end nothing: Cancel, the delivery of an expired message, and a discard whose dead
      letter marker could not be stored. */
  lemma TerminalWithoutEnding(w: World, e: Event, id: JobId)
    requires Safe(w) && Enabled(w, e.op) && id in w.jobs && !w.jobs[id].state.Terminal()
    ensures id in Apply(w, e).jobs
    ensures Ends(w, e, id) ==> Apply(w, e).jobs[id].state in {Completed, Discarded}
    ensures Apply(w, e).jobs[id].state.Terminal() && !Ends(w, e, id) ==>
              || e.op == CancelOp(id)
              || (e.op.DeliverOp? && e.op.m.job == id && Expired(e.op.m, w.clock))
              || (e.op.NackOp? && e.op.id == id && DeadLetters(w.jobs[id]) && e.faults(OnAddDeadLetter))
  {
    if Subject(e.op).Some? && Subject(e.op) != Some(id) { ApplyTouches(w, e); }
  }

  // ---------- ending again ----------

  predicate ExpiredJob(w: World, id: JobId)
    requires id in w.jobs
  {
    w.jobs[id].expiresAt.Some? && w.clock > w.jobs[id].expiresAt.value
  }

  /** Nothing can make the job active any more. */
  ghost predicate Dead(w: World, id: JobId) {
    && id in w.jobs && w.jobs[id].state != Active
    && (ExpiredJob(w, id) || (w.jobs[id].state in {Completed, Discarded} && NoMessage(w, id) && id !in w.dlq))
  }

  lemma KeepsDead(w: World, e: Event, id: JobId)
    requires Safe(w) && Addressed(w) && Dead(w, id) && Enabled(w, e.op)
    ensures Dead(Apply(w, e), id) && !Ends(w, e, id)
  {
    assert SafeJob(w, id);
    KeepsAddress(w, e, id);
    assert w.clock <= Apply(w, e).clock by { ClockAdvances(w, [e]); }
    if Subject(e.op).Some? && Subject(e.op) != Some(id) {
      ApplyTouches(w, e);
    } else {
      OwnStepKeepsDead(w, e, id);
    }
  }

  lemma OwnStepKeepsDead(w: World, e: Event, id: JobId)
    requires Safe(w) && Addressed(w) && Dead(w, id) && Enabled(w, e.op)
    requires Subject(e.op) == None || Subject(e.op) == Some(id)
    requires id in Apply(w, e).jobs && Apply(w, e).jobs[id].expiresAt == w.jobs[id].expiresAt
    requires w.clock <= Apply(w, e).clock
    ensures Dead(Apply(w, e), id)
  {
    if !ExpiredJob(w, id) { StaysEnded(w, e, id); }
  }

  lemma StaysEnded(w: World, e: Event, id: JobId)
    requires Safe(w) && Enabled(w, e.op) && (Subject(e.op) == None || Subject(e.op) == Some(id))
    requires id in w.jobs && w.jobs[id].state in {Completed, Discarded} && NoMessage(w, id) && id !in w.dlq
    ensures var w' := Apply(w, e);
            id in w'.jobs && w'.jobs[id].state in {Completed, Discarded} && NoMessage(w', id) && id !in w'.dlq
  {
    assert SafeJob(w, id);
  }

  lemma {:induction false} DeadEndsNothing(w: World, run: seq<Event>, id: JobId)
    requires Safe(w) && Addressed(w) && Dead(w, id) && Legal(w, run) && forall e | e in run :: Tolerated(e)
    ensures Endings(w, run, id) == 0
    decreases |run|
  {
    if run != [] {
      var e := run[0];
      assert e in run && forall e' | e' in run[1..] :: e' in run;
      KeepsDead(w, e, id);
      ApplySafe(w, e);
      OneStepAddressed(w, e);
      DeadEndsNothing(Apply(w, e), run[1..], id);
    }
  }

  lemma OneStepAddressed(w: World, e: Event)
    requires Safe(w) && Addressed(w) && Enabled(w, e.op) && Tolerated(e)
    ensures Addressed(Apply(w, e))
  {
    Unroll(w, e, []);
    assert [e] + [] == [e] && Legal(Apply(w, e), []);
    MessagesAddressed(w, [e]);
  }

  const NEVER: Faults := (s: Site) => false

  function Ok(op: Op): Event {
    Event(op, NEVER)
  }

  /** A message that has not expired brings any job that is not active back to an Ack. */
  lemma MessageEndsAgain(w: World, m: Message) returns (run: seq<Event>)
    requires Safe(w) && Addressed(w) && m in w.msgs && !Expired(m, w.clock)
    ensures Legal(w, run) && (forall e | e in run :: Tolerated(e)) && Endings(w, run, m.job) == 1
  {
    assert AddressedTo(w, m);
    var reappear, receive := Ok(ReappearOp(m)), Ok(ReceiveOp({m}));
    var deliver, ack := Ok(DeliverOp(m, "")), Ok(AckOp(m.job, ""));
    run := [reappear, receive, deliver, ack];
    var w1 := Apply(w, reappear);
    var w2 := Apply(w1, receive);
    var w3 := Apply(w2, deliver);
    UnrollShort(w1, receive, deliver, ack);
    Unroll(w, reappear, [receive, deliver, ack]);
    assert [reappear] + [receive, deliver, ack] == run && run[1..] == [receive, deliver, ack];
    assert run[1..][1..] == [deliver, ack] && [deliver, ack][1..] == [ack] && [ack][1..] == [];
    assert w3.jobs[m.job].state == Active;
    assert Endings(w3, [ack], m.job) == 1 + Endings(Apply(w3, ack), [], m.job);
    assert Endings(w2, [deliver, ack], m.job) == Endings(w3, [ack], m.job);
    assert Endings(w1, [receive, deliver, ack], m.job) == Endings(w2, [deliver, ack], m.job);
  }

  lemma DeadLetterEndsAgain(w: World, id: JobId) returns (run: seq<Event>)
    requires Safe(w) && Addressed(w) && id in w.dlq && id in w.jobs && !ExpiredJob(w, id)
    ensures Legal(w, run) && (forall e | e in run :: Tolerated(e)) && Endings(w, run, id) == 1
  {
    var retry := Ok(RetryDeadLetterOp(id));
    var w1 := Apply(w, retry);
    var m := NextMessage(w, id, w.jobs[id].queue, w.jobs[id].expiresAt);
    assert m in w1.msgs;
    ApplySafe(w, retry);
    OneStepAddressed(w, retry);
    var rest := MessageEndsAgain(w1, m);
    run := [retry] + rest;
    assert run[1..] == rest;
  }

  /** A job that has ended can end again, in some run, if and only if it has not expired
      and a message of it was left behind or it can be retried from the dead letter
      queue. */
  lemma EndsAgain(w: World, id: JobId)
    requires Safe(w) && Addressed(w) && id in w.jobs && w.jobs[id].state in {Completed, Discarded}
    ensures (exists run :: Legal(w, run) && (forall e | e in run :: Tolerated(e)) && Endings(w, run, id) > 0) <==>
            !ExpiredJob(w, id) && (!NoMessage(w, id) || id in w.dlq)
  {
    if !ExpiredJob(w, id) && !NoMessage(w, id) {
      var m :| m in w.msgs && m.job == id;
      assert AddressedTo(w, m);
      var run := MessageEndsAgain(w, m);
    } else if !ExpiredJob(w, id) && id in w.dlq {
      var run := DeadLetterEndsAgain(w, id);
    } else {
      assert Dead(w, id);
      forall run | Legal(w, run) && (forall e | e in run :: Tolerated(e)) ensures Endings(w, run, id) == 0 {
        DeadEndsNothing(w, run, id);
      }
    }
  }

  /** An Ack that ends a job leaves its message behind exactly when the delete, whose
      error is only logged, failed on a message that was still there. A discard leaves
      none: there the delete comes first and its error is returned. */
  lemma EndingLeavesMessage(w: World, e: Event, id: JobId)
    requires Safe(w) && Ends(w, e, id)
    ensures var w' := Apply(w, e);
            && id in w'.jobs && (id in w'.dlq <==> e.op.NackOp? && DeadLetters(w.jobs[id]))
            && (e.op.AckOp? ==> w'.jobs[id].state == Completed)
            && (e.op.AckOp? ==> (NoMessage(w', id) <==> NoMessage(w, id) || !e.faults(OnDeleteMessage)))
            && (e.op.NackOp? ==> w'.jobs[id].state == Discarded && NoMessage(w', id))
  {
    assert SafeJob(w, id);
  }

  /** So an acknowledged job can end again if and only if the delete of its message
      failed and the job has not expired. */
  lemma AckedAgain(w: World, e: Event, id: JobId)
    requires Safe(w) && Addressed(w) && Ends(w, e, id) && e.op.AckOp?
    ensures (exists run :: Legal(Apply(w, e), run) && (forall e' | e' in run :: Tolerated(e'))
                           && Endings(Apply(w, e), run, id) > 0) <==>
            !ExpiredJob(w, id) && e.faults(OnDeleteMessage) && !NoMessage(w, id)
  {
    EndingLeavesMessage(w, e, id);
    ApplySafe(w, e);
    OneStepAddressed(w, e);
    EndsAgain(Apply(w, e), id);
  }

  // ---------- fault-free runs ----------

  function Retries(run: seq<Event>, id: JobId): nat {
    if run == [] then 0
    else (if run[0].op == RetryDeadLetterOp(id) then 1 else 0) + Retries(run[1..], id)
  }

  predicate Over(w: World, id: JobId) {
    id in w.jobs && w.jobs[id].state in {Completed, Discarded}
  }

  /** Without faults a job ends at most once, and once more for each dead letter retry. */
  lemma {:induction false} EndsOnce(w: World, run: seq<Event>, id: JobId)
    requires Settled(w) && Legal(w, run) && forall e | e in run :: FaultFree(e)
    ensures Endings(w, run, id) <= Retries(run, id) + if Over(w, id) then 0 else 1
    decreases |run|
  {
    if run != [] {
      var e := run[0];
      if Over(w, id) { KeepsTerminal(w, e, id); }
      if Ends(w, e, id) { EndingLeavesMessage(w, e, id); }
      ApplySettles(w, e);
      EndsOnce(Apply(w, e), run[1..], id);
    }
  }
}
