/** What a reply tells. */
module Replies {
  import opened Domain
  import opened Protocol
  import opened Delivery
  import opened Lifecycle

  // What the replies say holds for every combination of failing calls.

  /** Push of a job that is not to wait succeeds exactly when the job has a message, and
      then the record is available; of a job that is to wait until `t`, exactly when it is
      scheduled for `t` in a queue that is registered. The record is what was submitted,
      without attempts, errors and results. */
  lemma PushReplies(w: World, id: JobId, sub: Submission, f: Faults)
    requires Safe(w) && id !in w.jobs
    ensures var o := Push(w, id, sub, f);
            var w', waits := o.world, sub.scheduledAt.Some? && w.clock < sub.scheduledAt.value;
            && o.reply in {Accepted, CallFailed}
            && (!waits ==>
                  && (o.reply == Accepted <==> !NoMessage(w', id)) && id !in w'.scheduled
                  && (o.reply == Accepted ==>
                        id in w'.jobs && w'.jobs[id].state == Available && sub.queue in w'.completed
                        && Message(w.nextMsg, id, sub.queue, sub.expiresAt) in w'.msgs))
            && (waits ==>
                  && (o.reply == Accepted <==> id in w'.scheduled && !f(OnRegisterQueue)) && NoMessage(w', id)
                  && (o.reply == Accepted ==>
                        id in w'.jobs && w'.jobs[id].state == Scheduled && sub.queue in w'.completed
                        && id in w'.scheduled && w'.scheduled[id] == sub.scheduledAt.value))
            && (id in w'.jobs ==>
                  var r := w'.jobs[id];
                  && r.queue == sub.queue && r.maxAttempts == sub.maxAttempts && r.policy == sub.policy
                  && r.expiresAt == sub.expiresAt && r.attempt == 0 && r.handle == None
                  && r.history == [] && r.error == None && r.result == "")
  {
    assert SafeJob(w, id);
    var m := NextMessage(w, id, sub.queue, sub.expiresAt);
    assert m in w.msgs + {m};
  }

  /** An Ack succeeds exactly when it makes an active job completed; the record then holds
      the given result, or the old one if none was given, and no error. */
  lemma AckReplies(w: World, id: JobId, result: string, f: Faults)
    ensures var o := Ack(w, id, result, f);
            var w' := o.world;
            && (o.reply == Accepted <==>
                  id in w.jobs && w.jobs[id].state == Active && w'.jobs[id].state == Completed)
            && (o.reply == Accepted ==>
                  w'.jobs[id] == w.jobs[id].(state := Completed, error := None,
                                             result := if result == "" then w.jobs[id].result else result))
            && (o.reply != Accepted ==> w'.jobs == w.jobs && w'.completed == w.completed)
            && (o.reply in {NotFound, Conflict} ==> w' == w)
            && (o.reply == Conflict <==> id in w.jobs && !f(OnGetJob) && w.jobs[id].state != Active)
  {}

  /** The result stays in the record for good. */
  lemma ResultKept(w: World, ack: Event, after: seq<Event>, id: JobId)
    requires Settled(w) && id in w.jobs && w.jobs[id].state == Active && ack.op.AckOp? && ack.op.id == id
    requires FaultFree(ack) && Legal(Apply(w, ack), after) && forall e | e in after :: FaultFree(e)
    ensures var w' := Exec(Apply(w, ack), after);
            && id in w'.jobs && w'.jobs[id].state == Completed && w'.jobs[id].error == None
            && w'.jobs[id].result == if ack.op.result == "" then w.jobs[id].result else ack.op.result
  {
    ApplySettles(w, ack);
    AckReplies(w, id, ack.op.result, ack.faults);
    FinalStates(Apply(w, ack), after, id);
  }

  /** The error skips the remaining attempts: it says so, or a pattern of the policy matches
      its type (its code, if it has none) or its message. */
  ghost predicate Skips(err: Option<JobError>, policy: Option<RetryPolicy>, matches: (string, string) -> bool) {
    && err.Some?
    && (err.value.retryable == Some(false)
        || (policy.Some? && exists p | p in policy.value.nonRetryable ::
              matches(if err.value.typ == "" then err.value.code else err.value.typ, p)
              || matches(err.value.message, p)))
  }

  lemma SkipsIff(err: Option<JobError>, policy: Option<RetryPolicy>, matches: (string, string) -> bool)
    ensures NonRetryable(err, policy, matches) <==> Skips(err, policy, matches)
  {
    if NonRetryable(err, policy, matches) && err.value.retryable != Some(false) {
      var ps := policy.value.nonRetryable;
      var i :| 0 <= i < |ps| && PatternHit(err.value, ps[i], matches);
      assert ps[i] in ps;
    }
    if Skips(err, policy, matches) && err.value.retryable != Some(false) {
      var ps := policy.value.nonRetryable;
      var p :| p in ps && (matches(if err.value.typ == "" then err.value.code else err.value.typ, p)
                           || matches(err.value.message, p));
      var i :| 0 <= i < |ps| && ps[i] == p;
      assert PatternHit(err.value, ps[i], matches);
    }
  }

  /** A counted failure: the job is discarded exactly when the error skips the remaining
      attempts or none is left (three by default), and retried otherwise; either way
      without a message. If the Nack succeeds, a discarded job is in the dead letter queue
      exactly when its policy asks for that, and a retried one is due after the backoff; and
      it succeeds exactly when the new state and the marker are stored and can be reloaded. */
  lemma NackReplies(w: World, e: Event)
    requires Safe(w) && e.op.NackOp? && !e.op.requeue && e.op.id in w.jobs && w.jobs[e.op.id].state == Active
    ensures var id, o := e.op.id, Nack(w, e.op.id, e.op.err, false, e.op.backoff, e.op.matches, e.faults);
            var r, w' := w.jobs[id], o.world;
            var last := || Skips(e.op.err, r.policy, e.op.matches)
                        || r.attempt + 1 >= (match r.maxAttempts case None => 3 case Some(n) => n);
            && id in w'.jobs
            && (w'.jobs[id].state != Active ==>
                  && w'.jobs[id].state == (if last then Discarded else Retryable) && NoMessage(w', id)
                  && w'.jobs[id].attempt == r.attempt + 1)
            && (o.reply == Accepted <==>
                  && w'.jobs[id].state != Active && !e.faults(OnReload)
                  && (if last then DeadLetters(r) ==> id in w'.dlq else id in w'.retries))
            && (o.reply == Accepted ==>
                  && (id in w'.dlq <==> last && r.policy.Some? && r.policy.value.onExhaustion == "dead_letter")
                  && (id in w'.retries <==> !last)
                  && (!last ==> w'.retries[id] == w.clock + e.op.backoff))
  {
    SkipsIff(e.op.err, w.jobs[e.op.id].policy, e.op.matches);
    assert SafeJob(w, e.op.id);
  }

  /** A Nack finds only stored jobs that can be read, refuses those that are not active, and
      then changes nothing. */
  lemma NackRefuses(w: World, e: Event)
    requires e.op.NackOp?
    ensures var id, o := e.op.id, Nack(w, e.op.id, e.op.err, e.op.requeue, e.op.backoff, e.op.matches, e.faults);
            && (o.reply == NotFound <==> id !in w.jobs || e.faults(OnGetJob))
            && (o.reply == Conflict <==> id in w.jobs && !e.faults(OnGetJob) && w.jobs[id].state != Active)
            && (o.reply in {NotFound, Conflict} ==> o.world == w)
  {}

  /** A requeue that succeeds makes the job available again without counting an attempt, and
      its message visible. */
  lemma RequeueReplies(w: World, e: Event)
    requires Safe(w) && e.op.NackOp? && e.op.requeue && e.op.id in w.jobs && w.jobs[e.op.id].state == Active
    ensures var id, o := e.op.id, Nack(w, e.op.id, e.op.err, true, e.op.backoff, e.op.matches, e.faults);
            var r, w' := w.jobs[id], o.world;
            && id in w'.jobs && w'.msgs == w.msgs
            && (o.reply == Accepted <==> w'.jobs[id].state == Available && !e.faults(OnReload))
            && (o.reply == Accepted ==>
                  && w'.jobs[id] == r.(state := Available, worker := "", handle := None)
                  && forall m | m in w.msgs && m.job == id :: m !in w'.inflight)
  {
    assert SafeJob(w, e.op.id);
  }

  /** A Cancel succeeds exactly when the job can be read and is not terminal, whatever comes
      of its other calls; each of them that succeeds does its part. */
  lemma CancelReplies(w: World, id: JobId, f: Faults)
    ensures var o := Cancel(w, id, f);
            var w' := o.world;
            && (o.reply == NotFound <==> id !in w.jobs || f(OnGetJob))
            && (o.reply == Conflict <==>
                  id in w.jobs && !f(OnGetJob) && w.jobs[id].state in {Completed, Cancelled, Discarded})
            && (o.reply in {NotFound, Conflict} ==> w' == w)
            && (o.reply in {NotFound, Conflict, Accepted})
            && (o.reply == Accepted ==>
                  && (id in w'.scheduled <==> id in w.scheduled && f(OnRemoveScheduled))
                  && (id in w'.retries <==> id in w.retries && f(OnRemoveRetry))
                  && (if f(OnUpdateState) then w'.jobs == w.jobs
                      else w'.jobs[id] == w.jobs[id].(state := Cancelled, handle := None))
                  && (w.jobs[id].handle.Some? && !f(OnDeleteMessage) ==> w.jobs[id].handle.value !in w'.msgs))
  {}

  /** A message gives its job exactly when it has not expired, the job is stored, and the
      update and the reload succeed; the job is then active for the worker with the
      message as its handle. An expired message is deleted and its job discarded, as far as
      the calls succeed. */
  lemma DeliverReplies(w: World, m: Message, worker: string, f: Faults)
    ensures var o := Deliver(w, m, worker, f);
            var w', expired := o.world, m.expiresAt.Some? && m.expiresAt.value < w.clock;
            && (o.reply == Accepted <==> !expired && m.job in w.jobs && !f(OnUpdateState) && !f(OnReload))
            && (m.job in w.jobs && !f(OnUpdateState) ==>
                  w'.jobs[m.job] == if expired then w.jobs[m.job].(state := Discarded)
                                    else w.jobs[m.job].(state := Active, worker := worker, handle := Some(m)))
            && (m in w'.msgs <==> m in w.msgs && !(expired && !f(OnDeleteMessage)))
  {}

  /** Retrying a dead letter finds only marked jobs that can be read; it reports the reload
      alone. The job starts again with no attempts and no errors, and is sent. */
  lemma RetryDeadLetterReplies(w: World, id: JobId, f: Faults)
    requires Safe(w)
    ensures var o := RetryDeadLetter(w, id, f);
            var w' := o.world;
            && (o.reply == NotFound <==> id !in w.dlq || f(OnCheckDeadLetter) || f(OnGetJob))
            && (o.reply == NotFound ==> w' == w)
            && (o.reply != NotFound ==>
                  && (o.reply == Accepted <==> !f(OnReload))
                  && (id in w'.dlq <==> f(OnRemoveDeadLetter)) && (NoMessage(w', id) <==> f(OnSendMessage))
                  && (if f(OnUpdateState) then w'.jobs == w.jobs
                      else w'.jobs[id] ==
                           w.jobs[id].(state := Available, attempt := 0, error := None, history := [])))
  {
    assert SafeJob(w, id);
    if id in w.jobs {
      var m := NextMessage(w, id, w.jobs[id].queue, w.jobs[id].expiresAt);
      assert m in w.msgs + {m};
    }
  }

  /** Deleting a dead letter succeeds exactly when it removes a marker. */
  lemma DeleteDeadLetterReplies(w: World, id: JobId, f: Faults)
    ensures var o := DeleteDeadLetter(w, id, f);
            && (o.reply == Accepted <==> id in w.dlq && id !in o.world.dlq)
            && (o.reply == Accepted ==> o.world == w.(dlq := w.dlq - {id}))
            && (o.reply != Accepted ==> o.world == w)
            && (o.reply == NotFound <==> id !in w.dlq || f(OnCheckDeadLetter))
  {}
}
