/** The net effect of each engine operation on the store and the queues, as a
    function of the calls that fail, and runs of operations. The imperative
    operations in module Backend are proved to have exactly these effects. */
module Protocol {
  import opened Domain

  datatype Outcome = Outcome(world: World, reply: Reply)

  function NewJob(sub: Submission, state: JobState): Job {
    Job(state, sub.queue, 0, sub.maxAttempts, sub.policy, sub.expiresAt, "", None, "", None, [])
  }

  function Registered(completed: map<QueueName, nat>, q: QueueName): map<QueueName, nat> {
    if q in completed then completed else completed[q := 0]
  }

  function Counter(completed: map<QueueName, nat>, q: QueueName): nat {
    if q in completed then completed[q] else 0
  }

  /** The message SQS makes of the next send. */
  function NextMessage(w: World, id: JobId, q: QueueName, expiresAt: Option<int>): Message {
    Message(w.nextMsg, id, q, expiresAt)
  }

  /** The messages left after deleting the one a receipt handle names, if any. */
  function Without(msgs: set<Message>, handle: Option<Message>): set<Message> {
    if handle.None? then msgs else msgs - {handle.value}
  }

  predicate Postponed(sub: Submission, now: int) {
    sub.scheduledAt.Some? && sub.scheduledAt.value > now
  }

  function Push(w: World, id: JobId, sub: Submission, f: Faults): Outcome {
    var late := Postponed(sub, w.clock);
    var put := !f(OnPutJob);
    var added := put && late && !f(OnAddScheduled);
    var registered := put && (late ==> added) && !f(OnRegisterQueue);
    var sent := registered && !late && !f(OnSendMessage);
    Outcome(
      w.(jobs := if put then w.jobs[id := NewJob(sub, if late then Scheduled else Available)] else w.jobs,
         scheduled := if added then w.scheduled[id := sub.scheduledAt.value] else w.scheduled,
         completed := if registered then Registered(w.completed, sub.queue) else w.completed,
         msgs := if sent then w.msgs + {NextMessage(w, id, sub.queue, sub.expiresAt)} else w.msgs,
         nextMsg := if sent then w.nextMsg + 1 else w.nextMsg),
      if sent || (registered && late) then Accepted else CallFailed)
  }

  predicate Expired(m: Message, now: int) {
    m.expiresAt.Some? && now > m.expiresAt.value
  }

  /** Fetch handles one received message for `worker`. */
  function Deliver(w: World, m: Message, worker: string, f: Faults): Outcome {
    var expired := Expired(m, w.clock);
    var updated := m.job in w.jobs && !f(OnUpdateState);
    var deleted := expired && !f(OnDeleteMessage);
    Outcome(
      w.(jobs := if !updated then w.jobs
                 else if expired then w.jobs[m.job := w.jobs[m.job].(state := Discarded)]
                 else w.jobs[m.job := w.jobs[m.job].(state := Active, worker := worker, handle := Some(m))],
         msgs := if deleted then w.msgs - {m} else w.msgs,
         inflight := if deleted then w.inflight - {m} else w.inflight),
      if !expired && updated then Reloaded(f) else CallFailed)
  }

  function Ack(w: World, id: JobId, result: string, f: Faults): Outcome {
    if id !in w.jobs || f(OnGetJob) then Outcome(w, NotFound)
    else if w.jobs[id].state != Active then Outcome(w, Conflict)
    else
      var r := w.jobs[id];
      var gone := if f(OnDeleteMessage) then None else r.handle;
      var done := r.(state := Completed, result := if result != "" then result else r.result, error := None);
      Outcome(
        w.(msgs := Without(w.msgs, gone), inflight := Without(w.inflight, gone),
           jobs := if f(OnUpdateState) then w.jobs else w.jobs[id := done],
           completed := if f(OnUpdateState) || f(OnIncrementCompleted) then w.completed
                        else w.completed[r.queue := Counter(w.completed, r.queue) + 1]),
        if f(OnUpdateState) then CallFailed else Accepted)
  }

  function MaxAttempts(r: Job): int {
    if r.maxAttempts.Some? then r.maxAttempts.value else 3
  }

  function ErrorType(e: JobError): string {
    if e.typ != "" then e.typ else e.code
  }

  function Entry(e: JobError, attempt: nat): ErrorEntry {
    ErrorEntry(attempt, e.message, ErrorType(e), e.retryable)
  }

  predicate PatternHit(e: JobError, pattern: string, matches: (string, string) -> bool) {
    matches(ErrorType(e), pattern) || matches(e.message, pattern)
  }

  predicate NonRetryable(err: Option<JobError>, policy: Option<RetryPolicy>, matches: (string, string) -> bool) {
    err.Some? &&
    (err.value.retryable == Some(false) ||
     (policy.Some? &&
      exists i :: 0 <= i < |policy.value.nonRetryable| && PatternHit(err.value, policy.value.nonRetryable[i], matches)))
  }

  predicate Exhausted(r: Job, err: Option<JobError>, matches: (string, string) -> bool) {
    NonRetryable(err, r.policy, matches) || r.attempt + 1 >= MaxAttempts(r)
  }

  predicate DeadLetters(r: Job) {
    r.policy.Some? && r.policy.value.onExhaustion == "dead_letter"
  }

  /** The record after a counted failure, before its new state is chosen. */
  function Failed(r: Job, err: Option<JobError>): Job {
    var r1 := r.(attempt := r.attempt + 1, handle := None);
    if err.None? then r1
    else r1.(error := Some(Entry(err.value, r.attempt)), history := r.history + [Entry(err.value, r.attempt)])
  }

  function Nack(w: World, id: JobId, err: Option<JobError>, requeue: bool, backoff: nat,
                matches: (string, string) -> bool, f: Faults): Outcome {
    if id !in w.jobs || f(OnGetJob) then Outcome(w, NotFound)
    else if w.jobs[id].state != Active then Outcome(w, Conflict)
    else if requeue then Requeue(w, id, f)
    else Fail(w, id, err, backoff, Exhausted(w.jobs[id], err, matches), f)
  }

  /** A counted failure of active job `id`: `last` tells whether it is discarded. */
  function Fail(w: World, id: JobId, err: Option<JobError>, backoff: nat, last: bool, f: Faults): Outcome
    requires id in w.jobs
  {
    var r := w.jobs[id];
    var updated := !f(OnUpdateState);
    if r.handle.Some? && f(OnDeleteMessage) then Outcome(w, CallFailed)
    else
      var buried := updated && last && DeadLetters(r) && !f(OnAddDeadLetter);
      var delayed := updated && !last && !f(OnAddRetry);
      Outcome(
        w.(msgs := Without(w.msgs, r.handle), inflight := Without(w.inflight, r.handle),
           jobs := if updated then w.jobs[id := Failed(r, err).(state := if last then Discarded else Retryable)]
                   else w.jobs,
           dlq := if buried then w.dlq + {id} else w.dlq,
           retries := if delayed then w.retries[id := w.clock + backoff] else w.retries),
        if delayed || buried || (updated && last && !DeadLetters(r)) then Reloaded(f) else CallFailed)
  }

  function Reloaded(f: Faults): Reply {
    if f(OnReload) then CallFailed else Accepted
  }

  function Requeue(w: World, id: JobId, f: Faults): Outcome
    requires id in w.jobs
  {
    var r := w.jobs[id];
    if r.handle.Some? && f(OnChangeVisibility) then Outcome(w, CallFailed)
    else if f(OnUpdateState) then Outcome(w.(inflight := Without(w.inflight, r.handle)), CallFailed)
    else
      var again := r.(state := Available, worker := "", handle := None);
      Outcome(w.(inflight := Without(w.inflight, r.handle), jobs := w.jobs[id := again]), Reloaded(f))
  }

  function Cancel(w: World, id: JobId, f: Faults): Outcome {
    if id !in w.jobs || f(OnGetJob) then Outcome(w, NotFound)
    else if w.jobs[id].state.Terminal() then Outcome(w, Conflict)
    else
      var r := w.jobs[id];
      var gone := if f(OnDeleteMessage) then None else r.handle;
      Outcome(
        w.(msgs := Without(w.msgs, gone), inflight := Without(w.inflight, gone),
           scheduled := if f(OnRemoveScheduled) then w.scheduled else w.scheduled - {id},
           retries := if f(OnRemoveRetry) then w.retries else w.retries - {id},
           jobs := if f(OnUpdateState) then w.jobs else w.jobs[id := r.(state := Cancelled, handle := None)]),
        Accepted)
  }

  /** Which set a promoter drains. */
  datatype Waiting = InScheduled | InRetry

  function WaitingSet(w: World, from: Waiting): map<JobId, int> {
    match from case InScheduled => w.scheduled case InRetry => w.retries
  }

  predicate Due(w: World, id: JobId, from: Waiting) {
    id in WaitingSet(w, from) && WaitingSet(w, from)[id] <= w.clock
  }

  /** One iteration of PromoteScheduled or PromoteRetries. */
  function Promote(w: World, id: JobId, from: Waiting, f: Faults): Outcome {
    if id !in w.jobs || f(OnGetJob) then Outcome(w, CallFailed)
    else
      var r := w.jobs[id];
      var removed := !f(if from.InScheduled? then OnRemoveScheduled else OnRemoveRetry);
      var updated := removed && !f(OnUpdateState);
      var sent := updated && !f(OnSendMessage);
      Outcome(
        w.(scheduled := if removed && from.InScheduled? then w.scheduled - {id} else w.scheduled,
           retries := if removed && from.InRetry? then w.retries - {id} else w.retries,
           jobs := if updated then w.jobs[id := r.(state := Available)] else w.jobs,
           msgs := if sent then w.msgs + {NextMessage(w, id, r.queue, r.expiresAt)} else w.msgs,
           nextMsg := if sent then w.nextMsg + 1 else w.nextMsg),
        if sent then Accepted else CallFailed)
  }

  function RetryDeadLetter(w: World, id: JobId, f: Faults): Outcome {
    if id !in w.dlq || f(OnCheckDeadLetter) then Outcome(w, NotFound)
    else if id !in w.jobs || f(OnGetJob) then Outcome(w, NotFound)
    else
      var r := w.jobs[id];
      var again := r.(state := Available, attempt := 0, error := None, history := []);
      Outcome(
        w.(dlq := if f(OnRemoveDeadLetter) then w.dlq else w.dlq - {id},
           jobs := if f(OnUpdateState) then w.jobs else w.jobs[id := again],
           msgs := if f(OnSendMessage) then w.msgs else w.msgs + {NextMessage(w, id, r.queue, r.expiresAt)},
           nextMsg := if f(OnSendMessage) then w.nextMsg else w.nextMsg + 1),
        Reloaded(f))
  }

  function DeleteDeadLetter(w: World, id: JobId, f: Faults): Outcome {
    if id !in w.dlq || f(OnCheckDeadLetter) then Outcome(w, NotFound)
    else if f(OnRemoveDeadLetter) then Outcome(w, CallFailed)
    else Outcome(w.(dlq := w.dlq - {id}), Accepted)
  }

  /** One operation of the engine, or one event of its environment. */
  datatype Op =
    | PushOp(id: JobId, sub: Submission)
    | ReceiveOp(batch: set<Message>)
    | DeliverOp(m: Message, worker: string)
    | AckOp(id: JobId, result: string)
    | NackOp(id: JobId, err: Option<JobError>, requeue: bool, backoff: nat, matches: (string, string) -> bool)
    | CancelOp(id: JobId)
    | PromoteOp(id: JobId, from: Waiting)
    | RetryDeadLetterOp(id: JobId)
    | DeleteDeadLetterOp(id: JobId)
    | PauseOp(queue: QueueName, paused: bool)
    | TickOp(ms: nat)        // time passes
    | ReappearOp(m: Message) // a visibility timeout ends
    | LoseOp(m: Message)     // a message is lost

  datatype Event = Event(op: Op, faults: Faults)

  function Apply(w: World, e: Event): World {
    match e.op
    case PushOp(id, sub) => Push(w, id, sub, e.faults).world
    case ReceiveOp(batch) => w.(inflight := w.inflight + batch)
    case DeliverOp(m, worker) => Deliver(w, m, worker, e.faults).world
    case AckOp(id, result) => Ack(w, id, result, e.faults).world
    case NackOp(id, err, requeue, backoff, matches) => Nack(w, id, err, requeue, backoff, matches, e.faults).world
    case CancelOp(id) => Cancel(w, id, e.faults).world
    case PromoteOp(id, from) => Promote(w, id, from, e.faults).world
    case RetryDeadLetterOp(id) => RetryDeadLetter(w, id, e.faults).world
    case DeleteDeadLetterOp(id) => DeleteDeadLetter(w, id, e.faults).world
    case PauseOp(queue, paused) => w.(paused := if paused then w.paused + {queue} else w.paused - {queue})
    case TickOp(ms) => w.(clock := w.clock + ms)
    case ReappearOp(m) => w.(inflight := w.inflight - {m})
    case LoseOp(m) => w.(msgs := w.msgs - {m}, inflight := w.inflight - {m})
  }

  /** Pushes use fresh IDs, SQS hands out visible messages, Fetch handles messages it
      received (still hidden or visible again), and promoters work on the IDs their due
      query returned. Every other operation may be called at any time with any argument. */
  predicate Enabled(w: World, op: Op) {
    match op
    case PushOp(id, _) => id !in w.jobs
    case ReceiveOp(batch) => batch <= w.msgs - w.inflight
    case DeliverOp(m, _) => m in w.msgs
    case PromoteOp(id, from) => Due(w, id, from)
    case _ => true
  }

  function Exec(w: World, run: seq<Event>): World
    decreases |run|
  {
    if run == [] then w else Exec(Apply(w, run[0]), run[1..])
  }

  predicate Legal(w: World, run: seq<Event>)
    decreases |run|
  {
    run == [] || (Enabled(w, run[0].op) && Legal(Apply(w, run[0]), run[1..]))
  }

  ghost predicate FaultFree(e: Event) {
    !e.op.LoseOp? && forall s: Site :: !e.faults(s)
  }

  lemma {:induction false} ExecConcat(w: World, a: seq<Event>, b: seq<Event>)
    ensures Exec(w, a + b) == Exec(Exec(w, a), b)
    ensures Legal(w, a + b) <==> Legal(w, a) && Legal(Exec(w, a), b)
    decreases |a|
  {
    if a == [] {
      assert a + b == b;
    } else {
      assert (a + b)[0] == a[0] && (a + b)[1..] == a[1..] + b;
      ExecConcat(Apply(w, a[0]), a[1..], b);
    }
  }

  lemma Unroll(w: World, e: Event, run: seq<Event>)
    ensures Exec(w, [e] + run) == Exec(Apply(w, e), run)
    ensures Legal(w, [e] + run) <==> Enabled(w, e.op) && Legal(Apply(w, e), run)
  {
    assert ([e] + run)[1..] == run;
  }

  /** One more event. */
  lemma Extend(w0: World, run: seq<Event>, e: Event)
    requires Legal(w0, run) && Enabled(Exec(w0, run), e.op)
    ensures Legal(w0, run + [e]) && Exec(w0, run + [e]) == Apply(Exec(w0, run), e)
  {
    ExecConcat(w0, run, [e]);
    Unroll(Exec(w0, run), e, []);
    assert [e] + [] == [e];
  }

  /** Runs of two and three events. */
  lemma UnrollShort(w: World, a: Event, b: Event, c: Event)
    ensures Exec(w, [a, b]) == Apply(Apply(w, a), b)
    ensures Legal(w, [a, b]) <==> Enabled(w, a.op) && Enabled(Apply(w, a), b.op)
    ensures Exec(w, [a, b, c]) == Apply(Apply(Apply(w, a), b), c)
    ensures Legal(w, [a, b, c]) <==>
            Enabled(w, a.op) && Enabled(Apply(w, a), b.op) && Enabled(Apply(Apply(w, a), b), c.op)
  {
    var w1 := Apply(w, a);
    Unroll(w1, b, []);
    Unroll(Apply(w1, b), c, []);
    Unroll(w1, b, [c]);
    Unroll(w, a, [b]);
    Unroll(w, a, [b, c]);
    assert [a] + [b] == [a, b] && [a] + [b, c] == [a, b, c] && [b] + [] == [b];
    assert [b] + [c] == [b, c] && [c] + [] == [c];
  }
}
