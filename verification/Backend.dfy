/** The engine's operations as they run: store and SQS calls in order, each of
    which may fail. */
module Backend {
  import opened Domain
  import P = Protocol
  import D = Delivery
  import B = Batches
  import Q = Producer
  import E = Endings
  import opened Fetching

  /** A call of advanceWorkflow. */
  datatype Advance = Advance(id: JobId, result: string, failed: bool)

  /** One promotion event per ID. */
  ghost function Promotions(due: seq<JobId>, from: P.Waiting, f: JobId -> Faults): seq<P.Event> {
    seq(|due|, i requires 0 <= i < |due| => P.Event(P.PromoteOp(due[i], from), f(due[i])))
  }

  lemma PromotionsSnoc(due: seq<JobId>, k: nat, from: P.Waiting, f: JobId -> Faults)
    requires k < |due|
    ensures Promotions(due[..k + 1], from, f) ==
            Promotions(due[..k], from, f) + [P.Event(P.PromoteOp(due[k], from), f(due[k]))]
  {}

  /** Job `id` has left the set it waited in and has a message. */
  ghost predicate Promoted(w: World, id: JobId, from: P.Waiting) {
    id !in P.WaitingSet(w, from) && !NoMessage(w, id)
  }

  lemma PromoteStep(w: World, id: JobId, from: P.Waiting, f: Faults, others: seq<JobId>)
    requires D.Safe(w) && P.Due(w, id, from) && id !in others
    ensures var o := P.Promote(w, id, from, f);
            && D.Safe(o.world) && o.world.clock == w.clock
            && (o.reply == Accepted <==> Promoted(o.world, id, from))
            && (forall j | j in others ::
                  && (P.Due(w, j, from) ==> P.Due(o.world, j, from))
                  && (Promoted(w, j, from) <==> Promoted(o.world, j, from)))
  {
    var o := P.Promote(w, id, from, f);
    D.PromoteSafe(w, id, from, f);
    assert D.SafeJob(w, id);
    if o.reply == Accepted {
      assert P.NextMessage(w, id, w.jobs[id].queue, w.jobs[id].expiresAt) in o.world.msgs;
    }
  }

  /** The first `k` of the due jobs have been tried, the others are still due; `ok`
      tells whether all tries succeeded. */
  ghost predicate Promoting(w0: World, w: World, ids: seq<JobId>, from: P.Waiting, f: JobId -> Faults, k: nat, ok: bool)
    requires k <= |ids|
  {
    && D.Safe(w)
    && P.Legal(w0, Promotions(ids[..k], from, f)) && w == P.Exec(w0, Promotions(ids[..k], from, f))
    && (forall j | k <= j < |ids| :: P.Due(w, ids[j], from))
    && (ok <==> forall j | 0 <= j < k :: Promoted(w, ids[j], from))
  }

  lemma PromoteNext(w0: World, w: World, ids: seq<JobId>, from: P.Waiting, f: JobId -> Faults, k: nat, ok: bool)
    requires k < |ids| && Distinct(ids) && Promoting(w0, w, ids, from, f, k, ok)
    ensures var o := P.Promote(w, ids[k], from, f(ids[k]));
            Promoting(w0, o.world, ids, from, f, k + 1, ok && o.reply == Accepted)
  {
    var o := P.Promote(w, ids[k], from, f(ids[k]));
    var others := ids[..k] + ids[k + 1..];
    P.Extend(w0, Promotions(ids[..k], from, f), P.Event(P.PromoteOp(ids[k], from), f(ids[k])));
    PromotionsSnoc(ids, k, from, f);
    PromoteStep(w, ids[k], from, f(ids[k]), others);
    forall j | 0 <= j < |ids| && j != k ensures ids[j] in others {
      assert ids[j] == if j < k then others[j] else others[j - 1];
    }
  }

  ghost function Cancellations(ids: seq<JobId>, f: JobId -> Faults): seq<P.Event> {
    seq(|ids|, i requires 0 <= i < |ids| => P.Event(P.CancelOp(ids[i]), f(ids[i])))
  }

  lemma CancellationsSnoc(ids: seq<JobId>, k: nat, f: JobId -> Faults)
    requires k < |ids|
    ensures Cancellations(ids[..k + 1], f) == Cancellations(ids[..k], f) + [P.Event(P.CancelOp(ids[k]), f(ids[k]))]
  {}

  ghost predicate Unfailing(f: Faults) {
    forall s: Site :: !f(s)
  }

  ghost predicate Stopped(w: World, id: JobId) {
    id in w.jobs ==> w.jobs[id].state.Terminal()
  }

  class Engine {
    var jobs: map<JobId, Job>
    var scheduled: map<JobId, int>
    var retries: map<JobId, int>
    var dlq: set<JobId>
    var completed: map<QueueName, nat>
    var paused: set<QueueName>
    var msgs: set<Message>
    var inflight: set<Message>
    var nextMsg: nat
    var clock: int

    function State(): World
      reads this
    {
      World(jobs, scheduled, retries, dlq, completed, paused, msgs, inflight, nextMsg, clock)
    }

    constructor ()
      ensures State() == INIT
    {
      jobs, scheduled, retries, dlq := map[], map[], map[], {};
      completed, paused, msgs, inflight, nextMsg, clock := map[], {}, {}, {}, 0, 0;
    }

    method SendToSQS(id: JobId, queue: QueueName, expiresAt: Option<int>)
      modifies `msgs, `nextMsg
      ensures msgs == old(msgs) + {P.NextMessage(old(State()), id, queue, expiresAt)}
      ensures nextMsg == old(nextMsg) + 1
    {
      msgs := msgs + {Message(nextMsg, id, queue, expiresAt)};
      nextMsg := nextMsg + 1;
    }

    method DeleteMessage(m: Message)
      modifies `msgs, `inflight
      ensures msgs == old(msgs) - {m} && inflight == old(inflight) - {m}
    {
      msgs := msgs - {m};
      inflight := inflight - {m};
    }

    method RegisterQueue(queue: QueueName)
      modifies `completed
      ensures completed == P.Registered(old(completed), queue)
    {
      if queue !in completed {
        completed := completed[queue := 0];
      }
    }

    method Push(id: JobId, sub: Submission, f: Faults) returns (reply: Reply)
      modifies this
      ensures P.Outcome(State(), reply) == P.Push(old(State()), id, sub, f)
    {
      var job := P.NewJob(sub, Available);
      if sub.scheduledAt.Some? {
        if sub.scheduledAt.value > clock {
          job := job.(state := Scheduled);
          if f(OnPutJob) { return CallFailed; }
          jobs := jobs[id := job];
          if f(OnAddScheduled) { return CallFailed; }
          scheduled := scheduled[id := sub.scheduledAt.value];
          if f(OnRegisterQueue) { return CallFailed; }
          RegisterQueue(sub.queue);
          return Accepted;
        }
      }
      if f(OnPutJob) { return CallFailed; }
      jobs := jobs[id := job];
      if f(OnRegisterQueue) { return CallFailed; }
      RegisterQueue(sub.queue);
      if f(OnSendMessage) { return CallFailed; }
      SendToSQS(id, sub.queue, sub.expiresAt);
      return Accepted;
    }

    method PutItem(it: B.Item, f: Faults) returns (ok: bool)
      modifies this
      ensures ok <==> B.Stores(f)
      ensures State() == if ok then B.Put(old(State()), it)
                         else if f(OnPutJob) then old(State()) else B.PutOnly(old(State()), it)
    {
      if f(OnPutJob) { return false; }
      jobs := jobs[it.id := P.NewJob(it.sub, Available)];
      if f(OnRegisterQueue) { return false; }
      RegisterQueue(it.sub.queue);
      return true;
    }

    /** The storing half of PushBatch: it stops at the first job that cannot be stored. */
    method PutBatch(items: seq<B.Item>, f: JobId -> Faults) returns (ok: bool)
      modifies this
      ensures State() == B.StoredBatch(old(State()), items, f)
      ensures ok <==> B.FirstFailure(items, f) == |items|
    {
      ghost var w0 := State();
      for k := 0 to |items|
        invariant State() == B.PutAll(w0, items[..k])
        invariant k <= B.FirstFailure(items, f)
      {
        var stored := PutItem(items[k], f(items[k].id));
        if !stored { return false; }
        B.PutAllSnoc(w0, items[..k], items[k]);
        assert items[..k + 1] == items[..k] + [items[k]];
      }
      assert items[..|items|] == items;
      ok := true;
    }

    method SendItems(sent: seq<B.Item>)
      modifies `msgs, `nextMsg
      ensures State() == B.SendAll(old(State()), sent)
    {
      ghost var w := State();
      for k := 0 to |sent|
        invariant State() == B.SendAll(w, sent[..k])
      {
        SendToSQS(sent[k].id, sent[k].sub.queue, sent[k].sub.expiresAt);
        B.SendAllSnoc(w, sent[..k], sent[k]);
        assert sent[..k + 1] == sent[..k] + [sent[k]];
      }
      assert sent[..|sent|] == sent;
    }

    /** sendBatchToSQS: grouped and chunked as in module Producer. SQS accepts the
        requests in `accepts` and takes the entries in `took` of the one it refuses. */
    method SendBatchToSQS(items: seq<B.Item>, order: seq<QueueName>, accepts: Q.Request -> bool,
                          took: (Q.Request, nat) -> bool)
      returns (ok: bool, ghost sent: seq<B.Item>)
      requires Q.Ordering(order, items)
      modifies `msgs, `nextMsg
      ensures State() == B.SendAll(old(State()), sent)
      ensures multiset(sent) <= multiset(items) && (ok ==> multiset(sent) == multiset(items))
    {
      var rs;
      ok, rs := Q.SendBatch(items, order, accepts);
      Q.TakenOfSent(rs, accepts, took);
      if ok { Q.AllTaken(rs, accepts, took); }
      sent := Q.Taken(rs, accepts, took);
      SendItems(Q.Taken(rs, accepts, took));
    }

    /** PushBatch: what it leaves behind, for every combination of failing calls, whatever
        SQS takes. A batch is all-or-nothing exactly when it succeeds or its first PutJob
        fails; in between it leaves jobs that are stored without a message. */
    method PushBatch(items: seq<B.Item>, order: seq<QueueName>, accepts: Q.Request -> bool,
                     took: (Q.Request, nat) -> bool, f: JobId -> Faults)
      returns (reply: Reply, ghost sent: seq<B.Item>)
      requires B.Fresh(State(), items) && Q.Ordering(order, items)
      modifies this
      ensures B.FirstFailure(items, f) < |items| ==> reply == CallFailed && sent == []
      ensures State() == B.SendAll(B.StoredBatch(old(State()), items, f), sent)
      ensures multiset(sent) <= multiset(items) && (reply == Accepted ==> multiset(sent) == multiset(items))
      ensures items != [] ==> (reply == Accepted || State() == old(State()) <==>
                               reply == Accepted || f(items[0].id)(OnPutJob))
      ensures items == [] ==> reply == Accepted
    {
      sent := [];
      if items == [] { return Accepted, []; }
      ghost var w0 := State();
      var ok := PutBatch(items, f);
      B.NothingStored(w0, items, f);
      if !ok { return CallFailed, []; }
      ghost var w1 := State();
      ok, sent := SendBatchToSQS(items, order, accepts, took);
      B.SendAllKeepsJobs(w1, sent);
      B.PutAllStores(w0, items);
      assert items[0].id in State().jobs && items[0].id !in w0.jobs;
      return if ok then Accepted else CallFailed, sent;
    }

    /** Ack goes on to advance the job's workflow exactly when it has ended the job. */
    method Ack(id: JobId, result: string, f: Faults) returns (reply: Reply, call: Option<Advance>)
      modifies this
      ensures P.Outcome(State(), reply) == P.Ack(old(State()), id, result, f)
      ensures call == if E.Ends(old(State()), P.Event(P.AckOp(id, result), f), id)
                      then Some(Advance(id, result, false)) else None
    {
      if id !in jobs || f(OnGetJob) { return NotFound, None; }
      var record := jobs[id];
      if record.state != Active { return Conflict, None; }
      if record.handle.Some? {
        if !f(OnDeleteMessage) {
          DeleteMessage(record.handle.value);
        }
      }
      var updated := record.(state := Completed, error := None);
      if result != "" {
        updated := updated.(result := result);
      }
      if f(OnUpdateState) { return CallFailed, None; }
      jobs := jobs[id := updated];
      if !f(OnIncrementCompleted) {
        completed := completed[record.queue := P.Counter(completed, record.queue) + 1];
      }
      return Accepted, Some(Advance(id, result, false));
    }

    method IsNonRetryable(err: Option<JobError>, policy: Option<RetryPolicy>, matches: (string, string) -> bool)
      returns (hit: bool)
      ensures hit <==> P.NonRetryable(err, policy, matches)
    {
      hit := err.Some? && err.value.retryable == Some(false);
      if !hit && err.Some? && policy.Some? {
        var patterns := policy.value.nonRetryable;
        var k := 0;
        while k < |patterns|
          invariant 0 <= k <= |patterns|
          invariant !hit && forall i | 0 <= i < k :: !P.PatternHit(err.value, patterns[i], matches)
        {
          var errType := err.value.code;
          if err.value.typ != "" {
            errType := err.value.typ;
          }
          if matches(errType, patterns[k]) || matches(err.value.message, patterns[k]) {
            assert P.PatternHit(err.value, patterns[k], matches);
            return true;
          }
          k := k + 1;
        }
      }
    }

    method RecordFailure(record: Job, err: Option<JobError>) returns (updated: Job)
      ensures updated == P.Failed(record, err)
    {
      updated := record.(attempt := record.attempt + 1, handle := None);
      if err.Some? {
        var errType := err.value.code;
        if err.value.typ != "" {
          errType := err.value.typ;
        }
        var entry := ErrorEntry(record.attempt, err.value.message, errType, err.value.retryable);
        updated := updated.(history := record.history + [entry], error := Some(entry));
      }
    }

    method Requeue(id: JobId, f: Faults) returns (reply: Reply)
      requires id in jobs
      modifies this
      ensures P.Outcome(State(), reply) == P.Requeue(old(State()), id, f)
    {
      var record := jobs[id];
      if record.handle.Some? {
        if f(OnChangeVisibility) { return CallFailed; }
        inflight := inflight - {record.handle.value};
      }
      if f(OnUpdateState) { return CallFailed; }
      jobs := jobs[id := record.(state := Available, worker := "", handle := None)];
      return if f(OnReload) then CallFailed else Accepted;
    }

    method Discard(id: JobId, err: Option<JobError>, f: Faults) returns (reply: Reply, call: Option<Advance>)
      requires id in jobs
      modifies this
      ensures P.Outcome(State(), reply) == P.Fail(old(State()), id, err, 0, true, f)
      ensures call == if E.Discards(old(jobs)[id], f) then Some(Advance(id, "", true)) else None
    {
      var record := jobs[id];
      var updated := RecordFailure(record, err);
      if record.handle.Some? {
        if f(OnDeleteMessage) { return CallFailed, None; }
        DeleteMessage(record.handle.value);
      }
      if f(OnUpdateState) { return CallFailed, None; }
      jobs := jobs[id := updated.(state := Discarded)];
      var onExhaustion := "discard";
      if record.policy.Some? && record.policy.value.onExhaustion != "" {
        onExhaustion := record.policy.value.onExhaustion;
      }
      if onExhaustion == "dead_letter" {
        if f(OnAddDeadLetter) { return CallFailed, None; }
        dlq := dlq + {id};
      }
      return if f(OnReload) then CallFailed else Accepted, Some(Advance(id, "", true));
    }

    method Retry(id: JobId, err: Option<JobError>, backoff: nat, f: Faults) returns (reply: Reply)
      requires id in jobs
      modifies this
      ensures P.Outcome(State(), reply) == P.Fail(old(State()), id, err, backoff, false, f)
    {
      var record := jobs[id];
      var updated := RecordFailure(record, err);
      if record.handle.Some? {
        if f(OnDeleteMessage) { return CallFailed; }
        DeleteMessage(record.handle.value);
      }
      if f(OnUpdateState) { return CallFailed; }
      jobs := jobs[id := updated.(state := Retryable)];
      if f(OnAddRetry) { return CallFailed; }
      retries := retries[id := clock + backoff];
      return if f(OnReload) then CallFailed else Accepted;
    }

    method Nack(id: JobId, err: Option<JobError>, requeue: bool, backoff: nat,
                matches: (string, string) -> bool, f: Faults) returns (reply: Reply, call: Option<Advance>)
      modifies this
      ensures P.Outcome(State(), reply) == P.Nack(old(State()), id, err, requeue, backoff, matches, f)
      ensures call == if E.Ends(old(State()), P.Event(P.NackOp(id, err, requeue, backoff, matches), f), id)
                      then Some(Advance(id, "", true)) else None
    {
      call := None;
      if id !in jobs || f(OnGetJob) { return NotFound, None; }
      var record := jobs[id];
      if record.state != Active { return Conflict, None; }
      var maxAttempts := 3;
      if record.maxAttempts.Some? {
        maxAttempts := record.maxAttempts.value;
      }
      if requeue {
        reply := Requeue(id, f);
        return;
      }
      var nonRetryable := IsNonRetryable(err, record.policy, matches);
      if nonRetryable || record.attempt + 1 >= maxAttempts {
        reply, call := Discard(id, err, f);
      } else {
        reply := Retry(id, err, backoff, f);
      }
    }

    method Cancel(id: JobId, f: Faults) returns (reply: Reply)
      modifies this
      ensures P.Outcome(State(), reply) == P.Cancel(old(State()), id, f)
    {
      if id !in jobs || f(OnGetJob) { return NotFound; }
      var record := jobs[id];
      if record.state.Terminal() { return Conflict; }
      if record.handle.Some? {
        if !f(OnDeleteMessage) {
          DeleteMessage(record.handle.value);
        }
      }
      if !f(OnRemoveScheduled) { scheduled := scheduled - {id}; }
      if !f(OnRemoveRetry) { retries := retries - {id}; }
      if !f(OnUpdateState) { jobs := jobs[id := record.(state := Cancelled, handle := None)]; }
      return Accepted;
    }

    /** The loop of CancelWorkflow over the members: terminal and unreadable jobs are
        passed over, and without failures every stored member ends in a terminal state. */
    method CancelMembers(ids: seq<JobId>, f: JobId -> Faults)
      modifies this
      ensures P.Legal(old(State()), Cancellations(ids, f))
      ensures State() == P.Exec(old(State()), Cancellations(ids, f))
      ensures forall i | 0 <= i < |ids| && Unfailing(f(ids[i])) :: Stopped(State(), ids[i])
    {
      ghost var w0 := State();
      assert ids[..0] == [];
      for k := 0 to |ids|
        invariant P.Legal(w0, Cancellations(ids[..k], f)) && State() == P.Exec(w0, Cancellations(ids[..k], f))
        invariant forall i | 0 <= i < k && Unfailing(f(ids[i])) :: Stopped(State(), ids[i])
      {
        var id := ids[k];
        P.Extend(w0, Cancellations(ids[..k], f), P.Event(P.CancelOp(id), f(id)));
        CancellationsSnoc(ids, k, f);
        forall j | 0 <= j <= k && Unfailing(f(ids[j])) ensures Stopped(P.Cancel(State(), id, f(id)).world, ids[j]) {
        }
        if id in jobs && !f(id)(OnGetJob) && !jobs[id].state.Terminal() {
          var _ := Cancel(id, f(id));
        }
      }
      assert ids[..|ids|] == ids;
    }

    method RetryDeadLetter(id: JobId, f: Faults) returns (reply: Reply)
      modifies this
      ensures P.Outcome(State(), reply) == P.RetryDeadLetter(old(State()), id, f)
    {
      if f(OnCheckDeadLetter) || id !in dlq { return NotFound; }
      if id !in jobs || f(OnGetJob) { return NotFound; }
      var record := jobs[id];
      if !f(OnRemoveDeadLetter) { dlq := dlq - {id}; }
      if !f(OnUpdateState) {
        jobs := jobs[id := record.(state := Available, attempt := 0, error := None, history := [])];
      }
      if !f(OnSendMessage) { SendToSQS(id, record.queue, record.expiresAt); }
      return if f(OnReload) then CallFailed else Accepted;
    }

    method DeleteDeadLetter(id: JobId, f: Faults) returns (reply: Reply)
      modifies this
      ensures P.Outcome(State(), reply) == P.DeleteDeadLetter(old(State()), id, f)
    {
      if f(OnCheckDeadLetter) || id !in dlq { return NotFound; }
      if f(OnRemoveDeadLetter) { return CallFailed; }
      dlq := dlq - {id};
      return Accepted;
    }

    // ---------- promotion (scheduling.go) ----------

    /** The due query, which may fail. */
    method GetDue(from: P.Waiting, query: bool) returns (ok: bool, due: seq<JobId>)
      ensures ok == query && Distinct(due)
      ensures forall id :: id in due <==> query && P.Due(State(), id, from)
      ensures !query ==> due == []
    {
      ok, due := query, [];
      if !query { return; }
      var waiting := P.WaitingSet(State(), from);
      var rest := waiting.Keys;
      while rest != {}
        invariant rest <= waiting.Keys && Distinct(due)
        invariant forall id :: id in due <==> P.Due(State(), id, from) && id !in rest
        decreases rest
      {
        var id :| id in rest;
        rest := rest - {id};
        if waiting[id] <= clock {
          due := due + [id];
        }
      }
    }

    method PromoteOne(id: JobId, from: P.Waiting, f: Faults) returns (reply: Reply)
      modifies this
      ensures P.Outcome(State(), reply) == P.Promote(old(State()), id, from, f)
    {
      if id !in jobs || f(OnGetJob) { return CallFailed; }
      var record := jobs[id];
      match from {
        case InScheduled =>
          if f(OnRemoveScheduled) { return CallFailed; }
          scheduled := scheduled - {id};
        case InRetry =>
          if f(OnRemoveRetry) { return CallFailed; }
          retries := retries - {id};
      }
      if f(OnUpdateState) { return CallFailed; }
      jobs := jobs[id := record.(state := Available)];
      if f(OnSendMessage) { return CallFailed; }
      SendToSQS(id, record.queue, record.expiresAt);
      return Accepted;
    }

    /** The loop over the due jobs. */
    method PromoteEach(ids: seq<JobId>, from: P.Waiting, f: JobId -> Faults) returns (ok: bool)
      requires D.Safe(State()) && Distinct(ids) && forall i | 0 <= i < |ids| :: P.Due(State(), ids[i], from)
      modifies this
      ensures Promoting(old(State()), State(), ids, from, f, |ids|, ok)
    {
      ok := true;
      ghost var w0 := State();
      var k := 0;
      assert ids[..0] == [];
      while k < |ids|
        invariant 0 <= k <= |ids| && Promoting(w0, State(), ids, from, f, k, ok)
      {
        PromoteNext(w0, State(), ids, from, f, k, ok);
        var reply := PromoteOne(ids[k], from, f(ids[k]));
        if reply != Accepted {
          ok := false;
        }
        k := k + 1;
      }
    }

    /** PromoteScheduled and PromoteRetries: if the query succeeds, every job due at the
        start is tried once, whatever happens to the others, and no error is reported
        exactly when the query succeeded and all of them were promoted. */
    method PromoteAll(from: P.Waiting, query: bool, f: JobId -> Faults) returns (ok: bool, ghost due: seq<JobId>)
      requires D.Safe(State())
      modifies this
      ensures Distinct(due) && forall id :: id in due <==> query && P.Due(old(State()), id, from)
      ensures P.Legal(old(State()), Promotions(due, from, f))
      ensures State() == P.Exec(old(State()), Promotions(due, from, f))
      ensures ok <==> query && forall id | id in due :: Promoted(State(), id, from)
    {
      var ids;
      ok, ids := GetDue(from, query);
      due := ids;
      if !ok {
        assert Promotions(ids, from, f) == [];
        return;
      }
      assert forall i | 0 <= i < |ids| :: ids[i] in ids;
      ok := PromoteEach(ids, from, f);
      assert ids[..|ids|] == ids;
    }

    // ---------- fetching (jobs.go) ----------

    /** SQS hands out at most `max` visible messages of a queue, in any choice and
        order, possibly none (as when the call fails), and hides them; a timeout of
        zero seconds would not hide them. */
    method Receive(queue: QueueName, max: int, visTimeoutSec: int, ghost remaining: int) returns (batch: seq<Message>)
      requires 1 <= max <= 10 && max <= remaining && visTimeoutSec > 0
      modifies `inflight
      ensures |batch| <= max && Distinct(batch)
      ensures forall m | m in batch :: m in msgs && m !in old(inflight) && m.queue == queue
      ensures inflight == old(inflight) + (set m | m in batch)
    {
      batch := [];
      var visible := set m | m in msgs && m !in inflight && m.queue == queue;
      while visible != {} && |batch| < max
        invariant |batch| <= max && Distinct(batch)
        invariant forall m | m in batch :: m in msgs && m !in old(inflight) && m.queue == queue && m !in visible
        invariant forall m | m in visible :: m in msgs && m !in old(inflight) && m.queue == queue
        invariant inflight == old(inflight) + (set m | m in batch)
        decreases visible
      {
        var m :| m in visible;
        visible := visible - {m};
        batch := batch + [m];
        inflight := inflight + {m};
      }
    }

    method DeliverOne(m: Message, worker: string, f: Faults) returns (reply: Reply)
      modifies this
      ensures P.Outcome(State(), reply) == P.Deliver(old(State()), m, worker, f)
    {
      if m.expiresAt.Some? && clock > m.expiresAt.value {
        if m.job in jobs && !f(OnUpdateState) {
          jobs := jobs[m.job := jobs[m.job].(state := Discarded)];
        }
        if !f(OnDeleteMessage) { DeleteMessage(m); }
        return CallFailed;
      }
      if m.job !in jobs || f(OnUpdateState) { return CallFailed; }
      jobs := jobs[m.job := jobs[m.job].(state := Active, worker := worker, handle := Some(m))];
      return if f(OnReload) then CallFailed else Accepted;
    }

    method DeliverBatch(batch: seq<Message>, count: int, worker: string, f: FetchFaults, before: seq<Fetched>)
      returns (fetched: seq<Fetched>)
      requires D.Safe(State()) && AllHeld(State(), before, worker) && Distinct(batch)
      requires forall m | m in batch :: m in msgs && m in inflight && NotFetched(before, m.job)
      requires |before| + |batch| <= count
      modifies this
      ensures D.Safe(State()) && AllHeld(State(), fetched, worker)
      ensures Ids(fetched) == Ids(before) + GivenBy(clock, old(jobs.Keys), batch, f)
      ensures |fetched| <= |before| + |batch| && clock == old(clock) && jobs.Keys == old(jobs.Keys)
      ensures msgs - inflight == old(msgs - inflight) && paused == old(paused)
      ensures P.Legal(old(State()), Deliveries(batch, worker, f))
      ensures State() == P.Exec(old(State()), Deliveries(batch, worker, f))
    {
      fetched := before;
      ghost var w0 := State();
      var k := 0;
      assert batch[..0] == [];
      while k < |batch|
        invariant 0 <= k <= |batch| && |fetched| <= |before| + k
        invariant Delivering(w0, State(), batch, worker, f, fetched, k)
        invariant Gave(w0, State(), batch, f, before, fetched, k)
      {
        if |fetched| >= count {
          break;
        }
        var m := batch[k];
        DeliverNext(w0, State(), batch, worker, f, fetched, k);
        GivesNext(w0, State(), batch, worker, f, before, fetched, k);
        var reply := DeliverOne(m, worker, f.at(m));
        if reply == Accepted {
          fetched := fetched + [Fetched(m.job, jobs[m.job])];
        }
        k := k + 1;
      }
      assert batch[..k] == batch;
    }

    /** Fetch from one queue until enough jobs are held or nothing is received. */
    method Drain(queue: QueueName, count: int, worker: string, visTimeoutSec: int, f: FetchFaults, before: seq<Fetched>)
      returns (fetched: seq<Fetched>, ghost calls: seq<Received>)
      requires D.Safe(State()) && AllHeld(State(), before, worker) && |before| < count && visTimeoutSec > 0
      modifies this
      ensures D.Safe(State()) && AllHeld(State(), fetched, worker) && |fetched| <= count
      ensures |fetched| < count ==> Received(queue, []) in calls
      ensures Polled(old(State()), State(), calls, worker, f, before, fetched)
      ensures CallsOn(calls, queue)
    {
      fetched := before;
      calls := [];
      ghost var w0 := State();
      var batchSize := count - |fetched|;
      if batchSize > 10 {
        batchSize := 10;
      }
      while |fetched| < count && batchSize > 0
        invariant D.Safe(State()) && AllHeld(State(), fetched, worker) && |fetched| <= count
        invariant batchSize == Size(count - |fetched|)
        invariant Polled(w0, State(), calls, worker, f, before, fetched)
        invariant CallsOn(calls, queue)
        decreases msgs - inflight
      {
        ghost var w, got := State(), fetched;
        var batch := Receive(queue, batchSize, visTimeoutSec, count - |fetched|);
        ghost var call := Received(queue, batch);
        assert State() == P.Apply(w, Receipt(batch));
        ReceiptKeeps(w, batch, fetched, worker);
        OneMoreCall(calls, call, queue);
        if batch == [] {
          assert inflight == w.inflight;
          PollNext(w0, w, w, calls, call, worker, f, before, got, got);
          calls := calls + [call];
          break;
        }
        fetched := DeliverBatch(batch, count, worker, f, fetched);
        PollNext(w0, w, State(), calls, call, worker, f, before, got, fetched);
        calls := calls + [call];
        batchSize := count - |fetched|;
        if batchSize > 10 {
          batchSize := 10;
        }
      }
    }

    /** Fetch with a visibility timeout of at least one second. It returns, in order, the
        jobs of the messages it received that had not expired, were stored and met no
        failing call, each as stored for this worker. Fewer than `count` come back only if
        every queue whose URL is known and that was not seen to be paused ran dry. */
    method FetchHiding(queues: seq<QueueName>, count: int, worker: string, secs: int, f: FetchFaults)
      returns (fetched: seq<Fetched>, ghost calls: seq<Received>)
      requires D.Safe(State()) && secs > 0
      modifies this
      ensures fetched == [] || |fetched| <= count
      ensures D.Safe(State()) && AllHeld(State(), fetched, worker)
      ensures Ids(fetched) == Given(clock, old(jobs.Keys), calls, f) && clock == old(clock)
      ensures |fetched| < count ==>
                forall q | q in queues && Readable(old(State()), q, f) :: Received(q, []) in calls
      ensures P.Legal(old(State()), FetchRun(calls, worker, f))
      ensures State() == P.Exec(old(State()), FetchRun(calls, worker, f))
      ensures forall c | c in calls :: c.queue in queues && Readable(old(State()), c.queue, f) && CallOn(c, c.queue)
    {
      fetched := [];
      calls := [];
      ghost var w0 := State();
      var k := 0;
      while k < |queues|
        invariant 0 <= k <= |queues| && (fetched == [] || |fetched| <= count)
        invariant D.Safe(State()) && AllHeld(State(), fetched, worker)
        invariant Polled(w0, State(), calls, worker, f, [], fetched)
        invariant |fetched| < count ==>
                    forall i | 0 <= i < k && Readable(w0, queues[i], f) :: Received(queues[i], []) in calls
        invariant forall c | c in calls :: c.queue in queues && Readable(w0, c.queue, f) && CallOn(c, c.queue)
      {
        if |fetched| >= count {
          break;
        }
        var queue := queues[k];
        k := k + 1;
        if (queue in paused && !f.pauseCheck(queue)) || f.queueUrl(queue) {
          continue;
        }
        ghost var w, got, more := State(), fetched, [];
        fetched, more := Drain(queue, count, worker, secs, f, fetched);
        PollQueue(w0, w, State(), calls, more, worker, f, got, fetched);
        calls := calls + more;
      }
      assert Ids([]) == [];
    }

    method DeliverVisible(batch: seq<Message>, count: int, worker: string, f: FetchFaults, before: seq<Fetched>)
      returns (fetched: seq<Fetched>)
      modifies this
      ensures Got(State(), fetched) == DeliverAll(old(State()), batch, count, worker, f, before)
    {
      fetched := before;
      ghost var w0 := State();
      var k := 0;
      assert batch[0..] == batch;
      while k < |batch| && |fetched| < count
        invariant 0 <= k <= |batch|
        invariant DeliverAll(State(), batch[k..], count, worker, f, fetched) ==
                  DeliverAll(w0, batch, count, worker, f, before)
      {
        assert batch[k..][0] == batch[k] && batch[k..][1..] == batch[k + 1..];
        var reply := DeliverOne(batch[k], worker, f.at(batch[k]));
        if reply == Accepted {
          fetched := fetched + [Fetched(batch[k].job, jobs[batch[k].job])];
        }
        k := k + 1;
      }
    }

    /** With a timeout of zero seconds received messages stay visible. `answers` are what
        SQS hands out, call by call; an answer it could not give, and the end of the list,
        stand for an empty one. */
    method DrainVisible(queue: QueueName, count: int, worker: string, f: FetchFaults, answers: seq<seq<Message>>,
                        before: seq<Fetched>)
      returns (fetched: seq<Fetched>)
      requires |before| < count
      modifies this
      ensures Got(State(), fetched) == ZeroDrain(old(State()), queue, count, worker, f, answers, before)
    {
      fetched := before;
      ghost var w0 := State();
      var k := 0;
      assert answers[0..] == answers;
      while |fetched| < count && k < |answers| && Answer(State(), queue, answers[k], Size(count - |fetched|))
        invariant 0 <= k <= |answers|
        invariant ZeroDrain(State(), queue, count, worker, f, answers[k..], fetched) ==
                  ZeroDrain(w0, queue, count, worker, f, answers, before)
        decreases |answers| - k
      {
        assert answers[k..][0] == answers[k] && answers[k..][1..] == answers[k + 1..];
        fetched := DeliverVisible(answers[k], count, worker, f, fetched);
        k := k + 1;
      }
    }

    /** Fetch with a timeout of zero seconds. */
    method FetchVisible(queues: seq<QueueName>, count: int, worker: string, f: FetchFaults,
                        answers: seq<seq<seq<Message>>>)
      returns (fetched: seq<Fetched>)
      modifies this
      ensures Got(State(), fetched) == ZeroFetch(old(State()), queues, 0, count, worker, f, answers, [])
    {
      fetched := [];
      ghost var w0 := State();
      var k := 0;
      while k < |queues| && |fetched| < count
        invariant 0 <= k <= |queues|
        invariant ZeroFetch(State(), queues, k, count, worker, f, answers, fetched) ==
                  ZeroFetch(w0, queues, 0, count, worker, f, answers, [])
      {
        var queue := queues[k];
        k := k + 1;
        if (queue in paused && !f.pauseCheck(queue)) || f.queueUrl(queue) {
          continue;
        }
        fetched := DrainVisible(queue, count, worker, f, AnswersAt(answers, k - 1), fetched);
      }
    }

    /** Fetch for any timeout: at most `count` jobs, and distinct ones unless the timeout
        comes to zero seconds and more than one job is asked for; and from one second on
        exactly the jobs of the messages it received and could handle, as many as there
        are. */
    method Fetch(queues: seq<QueueName>, count: int, worker: string, timeoutMs: int, defaultTimeoutMs: int,
                 f: FetchFaults, answers: seq<seq<seq<Message>>>)
      returns (fetched: seq<Fetched>, ghost calls: seq<Received>)
      requires D.Safe(State()) && defaultTimeoutMs > 0
      modifies this
      ensures fetched == [] || |fetched| <= count
      ensures D.Safe(State())
      ensures var effective := if timeoutMs > 0 then timeoutMs else defaultTimeoutMs;
              && (effective >= 1000 || count <= 1 ==> DistinctJobs(fetched))
              && (effective >= 1000 ==>
                    && AllHeld(State(), fetched, worker)
                    && Ids(fetched) == Given(clock, old(jobs.Keys), calls, f) && clock == old(clock)
                    && (|fetched| < count ==>
                          forall q | q in queues && Readable(old(State()), q, f) :: Received(q, []) in calls)
                    && P.Legal(old(State()), FetchRun(calls, worker, f))
                    && State() == P.Exec(old(State()), FetchRun(calls, worker, f))
                    && (forall c | c in calls ::
                          c.queue in queues && Readable(old(State()), c.queue, f) && CallOn(c, c.queue)))
              && (effective < 1000 ==>
                    (forall i | 0 <= i < |fetched| :: FromQueue(old(State()), fetched[i], queues, f))
                    && Got(State(), fetched) == ZeroFetch(old(State()), queues, 0, count, worker, f, answers, []))
    {
      var effective := timeoutMs;
      if effective <= 0 {
        effective := defaultTimeoutMs;
      }
      var secs := effective / 1000;
      if secs > 0 {
        fetched, calls := FetchHiding(queues, count, worker, secs, f);
      } else {
        ghost var w := State();
        fetched := FetchVisible(queues, count, worker, f, answers);
        calls := [];
        ZeroFetchBounds(w, queues, 0, count, worker, f, answers, []);
        ZeroFetchReads(w, w, queues, 0, count, worker, f, answers, []);
      }
    }
  }
}
