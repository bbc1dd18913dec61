/** Runs from the empty system that reach the inputs on which the protocol falls short. */
module Witnesses {
  import opened Domain
  import opened Protocol
  import opened Delivery
  import opened Lifecycle
  import E = Endings

  /** A fault-free run from the empty system to `w`. */
  ghost predicate Reaches(run: seq<Event>, w: World) {
    Legal(INIT, run) && Exec(INIT, run) == w && forall e | e in run :: FaultFree(e)
  }

  lemma OneMore(run: seq<Event>, w: World, op: Op)
    requires Reaches(run, w) && Enabled(w, op) && !op.LoseOp?
    ensures Reaches(run + [E.Ok(op)], Apply(w, E.Ok(op)))
  {
    Extend(INIT, run, E.Ok(op));
  }

  lemma ReachedIsSettled(run: seq<Event>, w: World)
    requires Reaches(run, w)
    ensures Settled(w)
  {
    ExecSettles(INIT, run);
  }

  /** Two messages, after a fault-free run into the dead letter queue and two retries
      whose marker removal fails. */
  lemma DuplicateFromInit(id: JobId, q: QueueName, retry: Event) returns (run: seq<Event>)
    requires retry.op == RetryDeadLetterOp(id) && forall s :: retry.faults(s) <==> s == OnRemoveDeadLetter
    ensures Legal(INIT, run) && TwoMessages(Exec(INIT, run), id)
  {
    var before, w := DeadLetterReached(id, q);
    ReachedIsSettled(before, w);
    FailedRemovalDuplicates(w, id, retry);
    ExecConcat(INIT, before, [retry, retry]);
    run := before + [retry, retry];
  }

  /** A job with one attempt fails into the dead letter queue. */
  lemma DeadLetterReached(id: JobId, q: QueueName) returns (run: seq<Event>, w: World)
    ensures Reaches(run, w) && id in w.dlq
  {
    var sub := Submission(q, Some(1), Some(RetryPolicy([], "dead_letter")), None, None);
    var nack := NackOp(id, None, false, 0, (s: string, p: string) => false);
    var m := Message(0, id, q, None);
    var w1 := Apply(INIT, E.Ok(PushOp(id, sub)));
    var w2 := Apply(w1, E.Ok(ReceiveOp({m})));
    var w3 := Apply(w2, E.Ok(DeliverOp(m, "")));
    OneMore([], INIT, PushOp(id, sub));
    run := [] + [E.Ok(PushOp(id, sub))];
    OneMore(run, w1, ReceiveOp({m}));
    run := run + [E.Ok(ReceiveOp({m}))];
    OneMore(run, w2, DeliverOp(m, ""));
    run := run + [E.Ok(DeliverOp(m, ""))];
    OneMore(run, w3, nack);
    run := run + [E.Ok(nack)];
    w := Apply(w3, E.Ok(nack));
  }

  /** A scheduled job is due after some time, and promoting it twice from one list of due
      jobs sends it twice. */
  lemma StaleFromInit(id: JobId, q: QueueName, promote: Event) returns (run: seq<Event>)
    requires promote.op == PromoteOp(id, InScheduled) && forall s :: !promote.faults(s)
    ensures Legal(INIT, run) && Due(Exec(INIT, run), id, InScheduled)
    ensures TwoMessages(Exec(Exec(INIT, run), [promote, promote]), id)
  {
    var sub := Submission(q, None, None, Some(1), None);
    var w1 := Apply(INIT, E.Ok(PushOp(id, sub)));
    OneMore([], INIT, PushOp(id, sub));
    run := [] + [E.Ok(PushOp(id, sub))];
    OneMore(run, w1, TickOp(1));
    run := run + [E.Ok(TickOp(1))];
    ReachedIsSettled(run, Apply(w1, E.Ok(TickOp(1))));
    StalePromotionDuplicates(Exec(INIT, run), id, InScheduled, promote);
  }

  /** A job that is pushed, cancelled while available, received and delivered is active. */
  lemma CancelledBackFromInit(id: JobId, q: QueueName) returns (run: seq<Event>)
    ensures Legal(INIT, run) && (forall e | e in run :: FaultFree(e)) && |run| == 4 && run[1].op == CancelOp(id)
    ensures var w := Exec(INIT, run); id in w.jobs && w.jobs[id].state == Active
  {
    var sub := Submission(q, None, None, None, None);
    var m := Message(0, id, q, None);
    var w := Apply(INIT, E.Ok(PushOp(id, sub)));
    OneMore([], INIT, PushOp(id, sub));
    var before := [] + [E.Ok(PushOp(id, sub))];
    ReachedIsSettled(before, w);
    var tail := [E.Ok(CancelOp(id)), E.Ok(ReceiveOp({m})), E.Ok(DeliverOp(m, ""))];
    CancelledComesBack(w, m, tail[0], tail[1], tail[2]);
    ExecConcat(INIT, before, tail);
    run := before + tail;
    assert tail == [tail[0], tail[1], tail[2]];
  }
}
