/** Values of the job engine: job records, SQS messages, and the joint state of
    the DynamoDB store and the SQS queues. */
module Domain {

  datatype Option<+T> = None | Some(value: T)

  type JobId(==, !new)
  type QueueName(==, !new)

  /** The states the engine assigns; `pending` is never assigned by this backend. */
  datatype JobState = Scheduled | Available | Active | Retryable | Completed | Cancelled | Discarded
  {
    predicate Terminal() {
      Completed? || Cancelled? || Discarded?
    }
  }

  datatype RetryPolicy = RetryPolicy(nonRetryable: seq<string>, onExhaustion: string)

  /** A failure reported by a worker. */
  datatype JobError = JobError(message: string, code: string, typ: string, retryable: Option<bool>)

  /** A failure as stored in the record; `attempt` is the attempt that failed. */
  datatype ErrorEntry = ErrorEntry(attempt: nat, message: string, typ: string, retryable: Option<bool>)

  /** An SQS message carrying a job. The send number `n` gives the message its
      identity; a receipt handle names its message, so it is one. */
  datatype Message = Message(n: nat, job: JobId, queue: QueueName, expiresAt: Option<int>)

  /** A job record (PK = job ID, SK = "JOB"). */
  datatype Job = Job(
    state: JobState,
    queue: QueueName,
    attempt: nat,
    maxAttempts: Option<int>,
    policy: Option<RetryPolicy>,
    expiresAt: Option<int>,
    worker: string,
    handle: Option<Message>,
    result: string,
    error: Option<ErrorEntry>,
    history: seq<ErrorEntry>)

  /** What a client submits to Push. */
  datatype Submission = Submission(
    queue: QueueName,
    maxAttempts: Option<int>,
    policy: Option<RetryPolicy>,
    scheduledAt: Option<int>,
    expiresAt: Option<int>)

  /** The store's rows, the SQS messages (with the ones currently hidden by their
      visibility timeout) and the clock in milliseconds. */
  datatype World = World(
    jobs: map<JobId, Job>,
    scheduled: map<JobId, int>,
    retries: map<JobId, int>,
    dlq: set<JobId>,
    completed: map<QueueName, nat>,
    paused: set<QueueName>,
    msgs: set<Message>,
    inflight: set<Message>,
    nextMsg: nat,
    clock: int)

  const INIT := World(map[], map[], map[], {}, map[], {}, {}, {}, 0, 0)

  ghost predicate NoMessage(w: World, id: JobId) {
    forall m | m in w.msgs :: m.job != id
  }

  ghost predicate OneMessage(w: World, id: JobId) {
    exists m :: m in w.msgs && m.job == id && forall m' | m' in w.msgs && m'.job == id :: m' == m
  }

  /** The calls inside an operation that can fail. A failed call has no effect. */
  datatype Site =
    | OnPutJob | OnAddScheduled | OnRegisterQueue | OnSendMessage
    | OnGetJob | OnDeleteMessage | OnChangeVisibility | OnUpdateState | OnReload
    | OnIncrementCompleted | OnAddRetry | OnAddDeadLetter
    | OnRemoveScheduled | OnRemoveRetry | OnCheckDeadLetter | OnRemoveDeadLetter

  /** Which calls of one operation fail. */
  type Faults = Site -> bool

  datatype Reply = Accepted | NotFound | Conflict | CallFailed
}
