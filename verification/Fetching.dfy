/** What Fetch does with the messages it receives, batch by batch. */
module Fetching {
  import opened Domain
  import P = Protocol
  import D = Delivery

  /** A job handed to a worker. */
  datatype Fetched = Fetched(id: JobId, job: Job)

  /** The calls of one Fetch that fail. */
  datatype FetchFaults = FetchFaults(pauseCheck: QueueName -> bool, queueUrl: QueueName -> bool, at: Message -> Faults)

  ghost predicate Distinct<T>(s: seq<T>) {
    forall i, j | 0 <= i < j < |s| :: s[i] != s[j]
  }

  /** A fetched job is active in the store for this worker, holds the receipt handle
      of a hidden message, and is returned as stored. */
  ghost predicate Held(w: World, x: Fetched, worker: string) {
    && x.id in w.jobs && w.jobs[x.id] == x.job
    && x.job.state == Active && x.job.worker == worker
    && x.job.handle.Some? && x.job.handle.value in w.msgs && x.job.handle.value in w.inflight
  }

  ghost predicate AllHeld(w: World, fetched: seq<Fetched>, worker: string) {
    && (forall i | 0 <= i < |fetched| :: Held(w, fetched[i], worker))
    && (forall i, j | 0 <= i < j < |fetched| :: fetched[i].id != fetched[j].id)
  }

  ghost predicate NotFetched(fetched: seq<Fetched>, id: JobId) {
    forall i | 0 <= i < |fetched| :: fetched[i].id != id
  }

  ghost function Deliveries(batch: seq<Message>, worker: string, f: FetchFaults): seq<P.Event> {
    seq(|batch|, i requires 0 <= i < |batch| => P.Event(P.DeliverOp(batch[i], worker), f.at(batch[i])))
  }

  ghost function Receipt(batch: seq<Message>): P.Event {
    P.Event(P.ReceiveOp(set m | m in batch), (s: Site) => false)
  }

  /** A ReceiveMessage call on a queue, with the messages it was answered with. */
  datatype Received = Received(queue: QueueName, batch: seq<Message>)

  /** Each batch is received and then every message of it is handled, in order. */
  ghost function FetchRun(calls: seq<Received>, worker: string, f: FetchFaults): seq<P.Event> {
    if calls == [] then []
    else FetchRun(calls[..|calls| - 1], worker, f)
         + ([Receipt(calls[|calls| - 1].batch)] + Deliveries(calls[|calls| - 1].batch, worker, f))
  }

  /** Which messages give a job: the ones that have not expired at time `now`, whose job is
      stored, and for which neither the update nor the reload fails. */
  predicate Gives(now: int, stored: set<JobId>, m: Message, f: FetchFaults) {
    && (m.expiresAt.Some? ==> now <= m.expiresAt.value)
    && m.job in stored && !f.at(m)(OnUpdateState) && !f.at(m)(OnReload)
  }

  /** The jobs of the messages of a batch that give one, in order, ... */
  function GivenBy(now: int, stored: set<JobId>, batch: seq<Message>, f: FetchFaults): seq<JobId> {
    if batch == [] then []
    else GivenBy(now, stored, batch[..|batch| - 1], f)
         + (if Gives(now, stored, batch[|batch| - 1], f) then [batch[|batch| - 1].job] else [])
  }

  /** ... and of all batches. */
  function Given(now: int, stored: set<JobId>, calls: seq<Received>, f: FetchFaults): seq<JobId> {
    if calls == [] then []
    else Given(now, stored, calls[..|calls| - 1], f) + GivenBy(now, stored, calls[|calls| - 1].batch, f)
  }

  function Ids(fetched: seq<Fetched>): seq<JobId> {
    seq(|fetched|, i requires 0 <= i < |fetched| => fetched[i].id)
  }

  lemma {:induction false} GivenConcat(now: int, stored: set<JobId>, a: seq<Received>, b: seq<Received>,
                                       f: FetchFaults)
    ensures Given(now, stored, a + b, f) == Given(now, stored, a, f) + Given(now, stored, b, f)
    decreases |b|
  {
    if b == [] {
      assert a + b == a;
    } else {
      var n := |b| - 1;
      GivenConcat(now, stored, a, b[..n], f);
      assert (a + b)[..|a + b| - 1] == a + b[..n] && (a + b)[|a + b| - 1] == b[n];
    }
  }

  lemma DeliveriesSnoc(batch: seq<Message>, k: nat, worker: string, f: FetchFaults)
    requires k < |batch|
    ensures Deliveries(batch[..k + 1], worker, f) ==
            Deliveries(batch[..k], worker, f) + [P.Event(P.DeliverOp(batch[k], worker), f.at(batch[k]))]
  {}

  lemma DeliverStep(w: World, m: Message, worker: string, f: Faults, fetched: seq<Fetched>)
    requires D.Safe(w) && m in w.msgs && m in w.inflight && AllHeld(w, fetched, worker) && NotFetched(fetched, m.job)
    ensures var o := P.Deliver(w, m, worker, f);
            && D.Safe(o.world) && AllHeld(o.world, fetched, worker)
            && o.world.msgs - o.world.inflight == w.msgs - w.inflight
            && (forall m' | m' != m ::
                  (m' in w.msgs <==> m' in o.world.msgs) && (m' in w.inflight <==> m' in o.world.inflight))
            && o.world.clock == w.clock && o.world.jobs.Keys == w.jobs.Keys
            && (o.reply == Accepted ==>
                  m.job in o.world.jobs && Held(o.world, Fetched(m.job, o.world.jobs[m.job]), worker))
  {
    var o := P.Deliver(w, m, worker, f);
    D.DeliverSafe(w, m, worker, f);
    forall i | 0 <= i < |fetched| ensures Held(o.world, fetched[i], worker) {
      assert Held(w, fetched[i], worker) && D.SafeJob(w, fetched[i].id);
    }
  }

  ghost predicate Pending(w: World, batch: seq<Message>, fetched: seq<Fetched>, k: nat) {
    forall j | k <= j < |batch| :: batch[j] in w.msgs && batch[j] in w.inflight && NotFetched(fetched, batch[j].job)
  }

  /** The first `k` messages of the batch have been handled; the others are still
      hidden and belong to jobs that were not fetched. */
  ghost predicate Delivering(w0: World, w: World, batch: seq<Message>, worker: string, f: FetchFaults,
                             fetched: seq<Fetched>, k: nat)
    requires k <= |batch|
  {
    && D.Safe(w) && AllHeld(w, fetched, worker)
    && w.msgs - w.inflight == w0.msgs - w0.inflight && w.paused == w0.paused
    && w.clock == w0.clock && w.jobs.Keys == w0.jobs.Keys
    && Pending(w, batch, fetched, k)
    && P.Legal(w0, Deliveries(batch[..k], worker, f)) && w == P.Exec(w0, Deliveries(batch[..k], worker, f))
  }

  /** The result list after handling message `m` with outcome `o`. */
  function Collected(fetched: seq<Fetched>, m: Message, o: P.Outcome): seq<Fetched> {
    if o.reply == Accepted && m.job in o.world.jobs then fetched + [Fetched(m.job, o.world.jobs[m.job])] else fetched
  }

  lemma DeliverNext(w0: World, w: World, batch: seq<Message>, worker: string, f: FetchFaults,
                    fetched: seq<Fetched>, k: nat)
    requires k < |batch| && Distinct(batch) && Delivering(w0, w, batch, worker, f, fetched, k)
    ensures var m := batch[k]; var o := P.Deliver(w, m, worker, f.at(m));
            Delivering(w0, o.world, batch, worker, f, Collected(fetched, m, o), k + 1)
  {
    var m := batch[k];
    P.Extend(w0, Deliveries(batch[..k], worker, f), P.Event(P.DeliverOp(m, worker), f.at(m)));
    DeliveriesSnoc(batch, k, worker, f);
    DeliverStep(w, m, worker, f.at(m), fetched);
  }

  /** The first `k` messages of a batch have given their jobs. */
  ghost predicate Gave(w0: World, w: World, batch: seq<Message>, f: FetchFaults, before: seq<Fetched>,
                       fetched: seq<Fetched>, k: nat)
    requires k <= |batch|
  {
    && w.clock == w0.clock && w.jobs.Keys == w0.jobs.Keys
    && Ids(fetched) == Ids(before) + GivenBy(w0.clock, w0.jobs.Keys, batch[..k], f)
  }

  lemma GivesNext(w0: World, w: World, batch: seq<Message>, worker: string, f: FetchFaults, before: seq<Fetched>,
                  fetched: seq<Fetched>, k: nat)
    requires k < |batch| && Gave(w0, w, batch, f, before, fetched, k)
    ensures var m := batch[k]; var o := P.Deliver(w, m, worker, f.at(m));
            Gave(w0, o.world, batch, f, before, Collected(fetched, m, o), k + 1)
  {
    var m := batch[k];
    var o := P.Deliver(w, m, worker, f.at(m));
    assert batch[..k + 1][..k] == batch[..k] && batch[..k + 1][k] == m;
    assert o.reply == Accepted <==> Gives(w.clock, w.jobs.Keys, m, f);
    if o.reply == Accepted {
      assert Ids(fetched + [Fetched(m.job, o.world.jobs[m.job])]) == Ids(fetched) + [m.job];
    }
  }

  /** What the calls made so far have come to. */
  ghost predicate Polled(w0: World, w: World, calls: seq<Received>, worker: string, f: FetchFaults,
                         before: seq<Fetched>, fetched: seq<Fetched>) {
    && w.paused == w0.paused && w.clock == w0.clock && w.jobs.Keys == w0.jobs.Keys
    && Ids(fetched) == Ids(before) + Given(w0.clock, w0.jobs.Keys, calls, f)
    && P.Legal(w0, FetchRun(calls, worker, f)) && w == P.Exec(w0, FetchRun(calls, worker, f))
  }

  /** One more call. */
  lemma PollNext(w0: World, w: World, w': World, calls: seq<Received>, call: Received, worker: string, f: FetchFaults,
                 before: seq<Fetched>, fetched: seq<Fetched>, fetched': seq<Fetched>)
    requires Polled(w0, w, calls, worker, f, before, fetched) && P.Enabled(w, Receipt(call.batch).op)
    requires var w1 := P.Apply(w, Receipt(call.batch));
             P.Legal(w1, Deliveries(call.batch, worker, f)) && w' == P.Exec(w1, Deliveries(call.batch, worker, f))
    requires w'.paused == w.paused && w'.clock == w.clock && w'.jobs.Keys == w.jobs.Keys
    requires Ids(fetched') == Ids(fetched) + GivenBy(w.clock, w.jobs.Keys, call.batch, f)
    ensures Polled(w0, w', calls + [call], worker, f, before, fetched')
  {
    ExtendByBatch(w0, w, calls, call, worker, f);
    assert (calls + [call])[..|calls|] == calls;
  }

  /** The calls on one more queue. */
  lemma PollQueue(w0: World, w1: World, w2: World, a: seq<Received>, b: seq<Received>, worker: string, f: FetchFaults,
                  fetched: seq<Fetched>, fetched': seq<Fetched>)
    requires Polled(w0, w1, a, worker, f, [], fetched) && Polled(w1, w2, b, worker, f, fetched, fetched')
    ensures Polled(w0, w2, a + b, worker, f, [], fetched')
  {
    P.ExecConcat(w0, FetchRun(a, worker, f), FetchRun(b, worker, f));
    FetchRunConcat(a, b, worker, f);
    GivenConcat(w0.clock, w0.jobs.Keys, a, b, f);
  }

  /** The URL of the queue is known, and it is not seen to be paused. */
  predicate Readable(w: World, queue: QueueName, f: FetchFaults) {
    !f.queueUrl(queue) && (queue in w.paused ==> f.pauseCheck(queue))
  }

  /** A call on `queue`, answered with at most ten messages of that queue. */
  ghost predicate CallOn(c: Received, queue: QueueName) {
    c.queue == queue && |c.batch| <= 10 && forall m | m in c.batch :: m.queue == queue
  }

  ghost predicate CallsOn(calls: seq<Received>, queue: QueueName) {
    forall c | c in calls :: CallOn(c, queue)
  }

  lemma OneMoreCall(calls: seq<Received>, c: Received, queue: QueueName)
    requires CallsOn(calls, queue) && CallOn(c, queue)
    ensures CallsOn(calls + [c], queue) && c in calls + [c]
  {}

  /** A visible message belongs to a job that was not fetched before. */
  lemma FreshBatch(w: World, batch: seq<Message>, fetched: seq<Fetched>, worker: string)
    requires D.Safe(w) && AllHeld(w, fetched, worker)
    requires forall m | m in batch :: m in w.msgs && m !in w.inflight
    ensures forall m | m in batch :: NotFetched(fetched, m.job)
  {
    forall m, i | m in batch && 0 <= i < |fetched| ensures fetched[i].id != m.job {
      assert Held(w, fetched[i], worker) && D.SafeJob(w, fetched[i].id);
    }
  }

  /** Receiving visible messages hides them. */
  lemma ReceiptKeeps(w: World, batch: seq<Message>, fetched: seq<Fetched>, worker: string)
    requires D.Safe(w) && AllHeld(w, fetched, worker)
    requires forall m | m in batch :: m in w.msgs && m !in w.inflight
    ensures P.Enabled(w, Receipt(batch).op)
    ensures var w1 := P.Apply(w, Receipt(batch));
            && D.Safe(w1) && AllHeld(w1, fetched, worker)
            && (forall m | m in batch :: m in w1.msgs && m in w1.inflight && NotFetched(fetched, m.job))
            && (batch != [] ==> w1.msgs - w1.inflight < w.msgs - w.inflight)
  {
    D.BystanderSafe(w, Receipt(batch));
    FreshBatch(w, batch, fetched, worker);
    var w1 := P.Apply(w, Receipt(batch));
    forall i | 0 <= i < |fetched| ensures Held(w1, fetched[i], worker) { assert Held(w, fetched[i], worker); }
    if batch != [] { assert batch[0] in w.msgs - w.inflight && batch[0] !in w1.msgs - w1.inflight; }
  }

  /** What a batch adds to a run. */
  lemma ExtendByBatch(w0: World, w: World, calls: seq<Received>, call: Received, worker: string, f: FetchFaults)
    requires P.Legal(w0, FetchRun(calls, worker, f)) && w == P.Exec(w0, FetchRun(calls, worker, f))
    requires P.Enabled(w, Receipt(call.batch).op)
    requires P.Legal(P.Apply(w, Receipt(call.batch)), Deliveries(call.batch, worker, f))
    ensures P.Legal(w0, FetchRun(calls + [call], worker, f))
    ensures P.Exec(w0, FetchRun(calls + [call], worker, f)) ==
            P.Exec(P.Apply(w, Receipt(call.batch)), Deliveries(call.batch, worker, f))
  {
    assert (calls + [call])[..|calls|] == calls;
    P.Unroll(w, Receipt(call.batch), Deliveries(call.batch, worker, f));
    P.ExecConcat(w0, FetchRun(calls, worker, f), [Receipt(call.batch)] + Deliveries(call.batch, worker, f));
  }

  lemma {:induction false} FetchRunConcat(a: seq<Received>, b: seq<Received>, worker: string, f: FetchFaults)
    ensures FetchRun(a + b, worker, f) == FetchRun(a, worker, f) + FetchRun(b, worker, f)
    decreases |b|
  {
    if b == [] {
      assert a + b == a;
    } else {
      var n := |b| - 1;
      FetchRunConcat(a, b[..n], worker, f);
      assert (a + b)[..|a + b| - 1] == a + b[..n] && (a + b)[|a + b| - 1] == b[n];
    }
  }

  // ---------- a timeout of zero seconds ----------

  ghost predicate DistinctJobs(fetched: seq<Fetched>) {
    forall i, j | 0 <= i < j < |fetched| :: fetched[i].id != fetched[j].id
  }

  /** The world and the jobs fetched so far. */
  datatype Got = Got(world: World, fetched: seq<Fetched>)

  /** The inner loop on messages that stay visible. */
  function DeliverAll(w: World, batch: seq<Message>, count: int, worker: string, f: FetchFaults,
                      fetched: seq<Fetched>): Got
    decreases |batch|
  {
    if batch == [] || |fetched| >= count then Got(w, fetched)
    else
      var o := P.Deliver(w, batch[0], worker, f.at(batch[0]));
      DeliverAll(o.world, batch[1..], count, worker, f, Collected(fetched, batch[0], o))
  }

  /** How many messages are asked for. */
  function Size(remaining: int): int {
    if remaining > 10 then 10 else remaining
  }

  /** SQS may hand out these messages: some visible ones of the queue, at most `max`. */
  predicate Answer(w: World, queue: QueueName, batch: seq<Message>, max: int) {
    && batch != [] && |batch| <= max
    && (forall i, j | 0 <= i < j < |batch| :: batch[i] != batch[j])
    && (forall i | 0 <= i < |batch| :: batch[i] in w.msgs && batch[i] !in w.inflight && batch[i].queue == queue)
  }

  /** The receive loop on one queue. */
  function ZeroDrain(w: World, queue: QueueName, count: int, worker: string, f: FetchFaults,
                     answers: seq<seq<Message>>, fetched: seq<Fetched>): Got
    decreases |answers|
  {
    if |fetched| >= count || answers == [] || !Answer(w, queue, answers[0], Size(count - |fetched|))
    then Got(w, fetched)
    else
      var g := DeliverAll(w, answers[0], count, worker, f, fetched);
      ZeroDrain(g.world, queue, count, worker, f, answers[1..], g.fetched)
  }

  /** The answers for the `k`-th queue. */
  function AnswersAt(answers: seq<seq<seq<Message>>>, k: nat): seq<seq<Message>> {
    if k < |answers| then answers[k] else []
  }

  /** The loop over the queues from the `k`-th on. */
  function ZeroFetch(w: World, queues: seq<QueueName>, k: nat, count: int, worker: string, f: FetchFaults,
                     answers: seq<seq<seq<Message>>>, fetched: seq<Fetched>): Got
    decreases |queues| - k
  {
    if k >= |queues| || |fetched| >= count then Got(w, fetched)
    else if (queues[k] in w.paused && !f.pauseCheck(queues[k])) || f.queueUrl(queues[k])
    then ZeroFetch(w, queues, k + 1, count, worker, f, answers, fetched)
    else
      var g := ZeroDrain(w, queues[k], count, worker, f, AnswersAt(answers, k), fetched);
      ZeroFetch(g.world, queues, k + 1, count, worker, f, answers, g.fetched)
  }

  /** All messages of the batch exist. */
  ghost predicate Existing(w: World, batch: seq<Message>) {
    Distinct(batch) && forall i | 0 <= i < |batch| :: batch[i] in w.msgs
  }

  lemma {:induction false} DeliverAllBounds(w: World, batch: seq<Message>, count: int, worker: string, f: FetchFaults,
                                            fetched: seq<Fetched>)
    requires D.Safe(w) && Existing(w, batch) && (fetched == [] || |fetched| <= count)
    ensures var g := DeliverAll(w, batch, count, worker, f, fetched);
            D.Safe(g.world) && (g.fetched == [] || |g.fetched| <= count)
    decreases |batch|
  {
    if batch != [] && |fetched| < count {
      var o := P.Deliver(w, batch[0], worker, f.at(batch[0]));
      D.DeliverSafe(w, batch[0], worker, f.at(batch[0]));
      assert forall i | 0 <= i < |batch| - 1 :: batch[1..][i] == batch[i + 1];
      DeliverAllBounds(o.world, batch[1..], count, worker, f, Collected(fetched, batch[0], o));
    }
  }

  lemma {:induction false} ZeroDrainBounds(w: World, queue: QueueName, count: int, worker: string, f: FetchFaults,
                                           answers: seq<seq<Message>>, fetched: seq<Fetched>)
    requires D.Safe(w) && (fetched == [] || |fetched| <= count)
    ensures var g := ZeroDrain(w, queue, count, worker, f, answers, fetched);
            D.Safe(g.world) && (g.fetched == [] || |g.fetched| <= count)
    decreases |answers|
  {
    if |fetched| < count && answers != [] && Answer(w, queue, answers[0], Size(count - |fetched|)) {
      DeliverAllBounds(w, answers[0], count, worker, f, fetched);
      var g := DeliverAll(w, answers[0], count, worker, f, fetched);
      ZeroDrainBounds(g.world, queue, count, worker, f, answers[1..], g.fetched);
    }
  }

  lemma {:induction false} ZeroFetchBounds(w: World, queues: seq<QueueName>, k: nat, count: int, worker: string,
                                           f: FetchFaults, answers: seq<seq<seq<Message>>>, fetched: seq<Fetched>)
    requires D.Safe(w) && (fetched == [] || |fetched| <= count)
    ensures var g := ZeroFetch(w, queues, k, count, worker, f, answers, fetched);
            D.Safe(g.world) && (g.fetched == [] || |g.fetched| <= count)
    decreases |queues| - k
  {
    if k < |queues| && |fetched| < count {
      if (queues[k] in w.paused && !f.pauseCheck(queues[k])) || f.queueUrl(queues[k]) {
        ZeroFetchBounds(w, queues, k + 1, count, worker, f, answers, fetched);
      } else {
        ZeroDrainBounds(w, queues[k], count, worker, f, AnswersAt(answers, k), fetched);
        var g := ZeroDrain(w, queues[k], count, worker, f, AnswersAt(answers, k), fetched);
        ZeroFetchBounds(g.world, queues, k + 1, count, worker, f, answers, g.fetched);
      }
    }
  }

  /** The job was fetched from one of the queues, which could be read. */
  ghost predicate FromQueue(w: World, x: Fetched, queues: seq<QueueName>, f: FetchFaults) {
    x.job.handle.Some? && x.job.handle.value.queue in queues && Readable(w, x.job.handle.value.queue, f)
  }

  ghost predicate AllFrom(w: World, fetched: seq<Fetched>, queues: seq<QueueName>, f: FetchFaults) {
    forall i | 0 <= i < |fetched| :: FromQueue(w, fetched[i], queues, f)
  }

  lemma {:induction false} DeliverAllReads(w0: World, w: World, queues: seq<QueueName>, batch: seq<Message>, count: int,
                                           worker: string, f: FetchFaults, fetched: seq<Fetched>)
    requires AllFrom(w0, fetched, queues, f)
    requires forall i | 0 <= i < |batch| :: batch[i].queue in queues && Readable(w0, batch[i].queue, f)
    ensures var g := DeliverAll(w, batch, count, worker, f, fetched);
            AllFrom(w0, g.fetched, queues, f) && g.world.paused == w.paused
    decreases |batch|
  {
    if batch != [] && |fetched| < count {
      var o := P.Deliver(w, batch[0], worker, f.at(batch[0]));
      assert forall i | 0 <= i < |batch| - 1 :: batch[1..][i] == batch[i + 1];
      DeliverAllReads(w0, o.world, queues, batch[1..], count, worker, f, Collected(fetched, batch[0], o));
    }
  }

  lemma {:induction false} ZeroDrainReads(w0: World, w: World, queues: seq<QueueName>, queue: QueueName, count: int,
                                          worker: string, f: FetchFaults, answers: seq<seq<Message>>,
                                          fetched: seq<Fetched>)
    requires AllFrom(w0, fetched, queues, f) && queue in queues && Readable(w0, queue, f)
    ensures var g := ZeroDrain(w, queue, count, worker, f, answers, fetched);
            AllFrom(w0, g.fetched, queues, f) && g.world.paused == w.paused
    decreases |answers|
  {
    if |fetched| < count && answers != [] && Answer(w, queue, answers[0], Size(count - |fetched|)) {
      DeliverAllReads(w0, w, queues, answers[0], count, worker, f, fetched);
      var g := DeliverAll(w, answers[0], count, worker, f, fetched);
      ZeroDrainReads(w0, g.world, queues, queue, count, worker, f, answers[1..], g.fetched);
    }
  }

  /** With a timeout of zero seconds too, jobs come only from the queues that were asked for,
      have a URL and are not seen to be paused. */
  lemma {:induction false} ZeroFetchReads(w0: World, w: World, queues: seq<QueueName>, k: nat, count: int,
                                          worker: string, f: FetchFaults, answers: seq<seq<seq<Message>>>,
                                          fetched: seq<Fetched>)
    requires AllFrom(w0, fetched, queues, f) && w.paused == w0.paused
    ensures AllFrom(w0, ZeroFetch(w, queues, k, count, worker, f, answers, fetched).fetched, queues, f)
    decreases |queues| - k
  {
    if k < |queues| && |fetched| < count {
      if (queues[k] in w.paused && !f.pauseCheck(queues[k])) || f.queueUrl(queues[k]) {
        ZeroFetchReads(w0, w, queues, k + 1, count, worker, f, answers, fetched);
      } else {
        ZeroDrainReads(w0, w, queues, queues[k], count, worker, f, AnswersAt(answers, k), fetched);
        var g := ZeroDrain(w, queues[k], count, worker, f, AnswersAt(answers, k), fetched);
        ZeroFetchReads(w0, g.world, queues, k + 1, count, worker, f, answers, g.fetched);
      }
    }
  }

  /** Delivering a single message that stays visible. */
  lemma DeliverAgain(w: World, m: Message, count: int, worker: string, f: FetchFaults, fetched: seq<Fetched>)
    requires m in w.msgs && m.job in w.jobs && !P.Expired(m, w.clock) && (forall s: Site :: !f.at(m)(s))
    requires |fetched| < count
    ensures var g := DeliverAll(w, [m], count, worker, f, fetched);
            && |g.fetched| == |fetched| + 1 && g.fetched[..|fetched|] == fetched && g.fetched[|fetched|].id == m.job
            && g.world.msgs == w.msgs && g.world.inflight == w.inflight && g.world.clock == w.clock
            && m.job in g.world.jobs
  {
    assert [m][1..] == [];
  }

  /** Handing out the same message twice. */
  lemma SameTwice(w: World, m: Message, count: int, worker: string, f: FetchFaults)
    requires m in w.msgs && m !in w.inflight && m.job in w.jobs && !P.Expired(m, w.clock)
    requires (forall s: Site :: !f.at(m)(s)) && count >= 2
    ensures !DistinctJobs(ZeroDrain(w, m.queue, count, worker, f, [[m], [m]], []).fetched)
  {
    DeliverAgain(w, m, count, worker, f, []);
    var g := DeliverAll(w, [m], count, worker, f, []);
    DeliverAgain(g.world, m, count, worker, f, g.fetched);
    var g' := DeliverAll(g.world, [m], count, worker, f, g.fetched);
    assert [[m], [m]][1..] == [[m]] && [[m]][1..] == [];
    assert ZeroDrain(g'.world, m.queue, count, worker, f, [], g'.fetched) == g';
    assert ZeroDrain(g.world, m.queue, count, worker, f, [[m]], g.fetched) == g';
    assert g'.fetched[0] == g'.fetched[..1][0] && g'.fetched[0].id == g'.fetched[1].id;
  }

  /** One execution of Fetch on a queue returns distinct jobs. */
  ghost predicate NoRepeat(w: World, queue: QueueName, count: int, worker: string, f: FetchFaults,
                           answers: seq<seq<seq<Message>>>) {
    DistinctJobs(ZeroFetch(w, [queue], 0, count, worker, f, answers, []).fetched)
  }

  lemma Repeats(w: World, m: Message, count: int, worker: string, f: FetchFaults)
    requires m in w.msgs && m !in w.inflight && m.job in w.jobs && !P.Expired(m, w.clock)
    requires m.queue !in w.paused && !f.queueUrl(m.queue) && (forall s: Site :: !f.at(m)(s)) && count >= 2
    ensures !NoRepeat(w, m.queue, count, worker, f, [[[m], [m]]])
  {
    var answers := [[[m], [m]]];
    SameTwice(w, m, count, worker, f);
    var g := ZeroDrain(w, m.queue, count, worker, f, [[m], [m]], []);
    assert ZeroFetch(g.world, [m.queue], 1, count, worker, f, answers, g.fetched) == g;
    assert AnswersAt(answers, 0) == [[m], [m]] && ZeroFetch(w, [m.queue], 0, count, worker, f, answers, []) == g;
  }

  /** With a timeout of zero seconds, on a queue that is not paused and holds a visible
      message that has not expired: every execution of Fetch returns distinct jobs if and
      only if at most one is asked for. */
  lemma RepeatsIff(w: World, m: Message, count: int, worker: string, f: FetchFaults)
    requires D.Safe(w) && m in w.msgs && m !in w.inflight && m.job in w.jobs && !P.Expired(m, w.clock)
    requires m.queue !in w.paused && !f.queueUrl(m.queue) && forall s: Site :: !f.at(m)(s)
    ensures (forall answers :: NoRepeat(w, m.queue, count, worker, f, answers)) <==> count <= 1
  {
    if count <= 1 {
      forall answers ensures NoRepeat(w, m.queue, count, worker, f, answers) {
        ZeroFetchBounds(w, [m.queue], 0, count, worker, f, answers, []);
      }
    } else {
      Repeats(w, m, count, worker, f);
    }
  }
}
