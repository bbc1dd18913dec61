# Open Job Spec backend on SQS and DynamoDB: a verified model

The backend keeps a job in two systems at once: a record (and marker rows) in one DynamoDB table and a message in an
SQS queue. There is no transaction between them. Every operation is a fixed sequence of store and SQS calls, any of
which may fail, and the guarantees rest on the order of the calls. This project models that protocol, cron firing,
workflows, unique keys, the single-table store, batch sending and the in-memory event broker, and proves what holds over
all inputs, runs and interleavings. Where the code does not meet what it aims at, there is a lemma with the failing run
and one that says when the property does hold.

## How it is organised

| file | component |
|---|---|
| `Domain.dfy`, `Protocol.dfy` | records, messages, the world; the net effect of each operation as a function of the calls that fail; runs |
| `Delivery.dfy`, `Deadlines.dfy` | at most one message per job in all faulty runs; nothing is delivered before the time it was pushed for or its backoff is over |
| `Replies.dfy` | what an operation has done when it replies, whichever of its calls fail |
| `Lifecycle.dfy`, `Budget.dfy` | fault-free runs: exactly one place per job, final states, exact counters, retry budget and error history |
| `Endings.dfy` | when a job ends, that is, advances its workflow, and how often that can happen |
| `Backend.dfy`, `Batches.dfy`, `Fetching.dfy` | the operations as they run, call by call and loop by loop, proved to have those net effects; batches as runs of pushes; what Fetch does with its messages |
| `Witnesses.dfy` | runs from the empty system that reach the inputs on which the protocol falls short |
| `Crons.dfy`, `Firing.dfy`, `Overlaps.dfy` | any number of schedulers interleaving store call by store call; FireCronJobs as one scheduler runs it; the `skip` policy and jobs that come back |
| `Counting.dfy`, `Groups.dfy`, `GroupRuns.dfy`, `GroupOutcomes.dfy` | group and batch workflows with interleaving calls of AdvanceWorkflow and CancelWorkflow, whatever fails; how they end |
| `Chains.dfy`, `ChainRuns.dfy`, `Completions.dfy` | chain workflows, likewise; when a completed chain has had all its steps acknowledged |
| `UniqueKeys.dfy` | interleaving pushes with the same fingerprint |
| `Table.dfy`, `Updates.dfy`, `Indexes.dfy`, `Listing.dfy` | key encoding, generated update expressions, secondary indexes, the two listing paths |
| `Producer.dfy` | grouping and chunking of batch sends |
| `Broker.dfy` | the read-write lock, the bounded channels and their closing |

## Decisions

- A failing call is a value of the oracle `Faults` (one flag per call site) and has no effect. A fault-free run has no
  failing call and loses no message. Clock, worker IDs, backoff, regular expression matching, the choice of messages SQS
  hands out and map iteration orders are parameters or choices, so lemmas hold for all of them.
- Time stamps are integers, JSON coding is the identity, and `completed`, `cancelled` and `discarded` are the terminal
  states. Integers are unbounded: no counter here comes near its width.
- Pushed jobs have fresh IDs, queues are standard queues and a receipt handle names its message. In the engine, calls on
  the same job do not interleave; crons, workflows, unique keys and the broker are modelled call by call, in any
  interleaving.
- A workflow module does not assume that a member ends once: how often a job can end is a result of module `Endings`,
  and the workflow theorems say what depends on it.
- Callers pass `state` among the updates of UpdateJobState, which assigns it already. The model gives this its intended
  effect, two assignments of the same value.
- A promoter works on the list of due IDs it has just read. `Delivery.StalePromotionDuplicates` shows what an outdated
  list would do (from the empty system, `Witnesses.StaleFromInit`).

## Where the code falls short

Each shortfall has a lemma with the failing run and one with the exact condition.

- RetryDeadLetter ignores the error of RemoveFromDeadLetter: a failure and a second retry give two messages
  (`Delivery.FailedRemovalDuplicates`, from the empty system `Witnesses.DuplicateFromInit`; condition
  `Delivery.RetryDeadLetterSafe`).
- Cancelling an `available` job leaves its message behind, and Fetch then activates the cancelled job, although the
  lifecycle description calls `cancelled` terminal (`Lifecycle.CancelledComesBack`, `Witnesses.CancelledBackFromInit`,
  `Lifecycle.CancelLeavesMessage`, `Lifecycle.CancelledIsFinal`). With the overlap policy `skip`, two jobs of a cron are
  then live at once (`Overlaps.RevivedOverlaps`, `Overlaps.SkipHoldsIff`).
- Ack only logs a failed DeleteMessage: the completed job is delivered and acknowledged again, and advances its workflow
  again (`Endings.AckedAgain`, `Endings.EndsAgain`). A batch then closes and fires early, or fires twice
  (`GroupRuns.EndsTwiceClosesEarly`, `Groups.ClosesTooSoon`, `GroupRuns.FiresOnceIff`). A chain pushes a step twice
  (`ChainRuns.EndsTwicePushesTwice`, `Chains.StepsInOrder`, `ChainRuns.InOrderIff`) or is completed before its last step
  has ended (`Completions.EndsTwiceCompletesEarly`, `Completions.CompletesTooSoon`, `Completions.CompletesIff`).
- Cancel, the expiry of a message and a discard whose dead letter marker cannot be stored end a job without advancing
  its workflow, which then never closes unless another member advances twice (`Endings.TerminalWithoutEnding`,
  `Groups.MissingMember`, `GroupOutcomes.FinalOutcome`).
- AdvanceWorkflow reads, increments and writes back without a condition: overlapping calls lose a count and the
  workflow never ends (`GroupRuns.LostUpdate`). Nor does it when a call cannot read, which it does not report
  (`GroupRuns.ReadFails`). `Groups.ExactUnlessLost` says when the counters are exact. The error of storing the final
  state is ignored too: a batch fires its callbacks and stays `running` (`GroupRuns.CloseFails`). How every group and
  batch ends, whatever failed, is `GroupOutcomes.FinalOutcome`.
- A cancelled batch can still be finished and fire its callbacks (`GroupRuns.CancelTooLate`, `GroupRuns.CancelStops`). A
  chain step can be pushed after the workflow was cancelled, and `cancelled` can be overwritten with `completed`
  (`ChainRuns.CancelTooLate`, `ChainRuns.CancelOverwritten`, `Chains.CancelStops`).
- The errors of SetWorkflowResult and GetWorkflowResults are ignored: the next step is given too few results
  (`ChainRuns.ResultDropped`, `Chains.ParentsRight`). So is the error of UpdateWorkflow: the chain then runs through and
  stays `running` (`ChainRuns.IgnoredUpdateStrands`, `Chains.ChainOutcome`).
- A Push with `replace` cancels the existing job and is then refused, because Cancel leaves the UNIQUE row
  (`UniqueKeys.ReplaceLosesBoth`, `UniqueKeys.Key.Admit`).
- A cron pass that takes the lock and does not move the cron on blocks the cron until the lock row expires, with or
  without an error: a template without a type does so silently (`Firing.StuckAtOnce`, `Firing.UntypedBlocksSilently`,
  `Firing.PassBlocks`, `Crons.StuckForGood`). The pass after the expiry pushes the same second again
  (`Firing.PushedTwice`, `Firing.ExpiredLockPushesAgain`).
- A visibility timeout below one second becomes zero and Fetch can return the same job more than once
  (`Fetching.Repeats`, `Fetching.RepeatsIff`).
- PushBatch ignores a scheduled time, so that a job gets a message before it is due (`Batches.SentTooSoon`,
  `Batches.ScheduleIgnored`), and a unique policy, so that duplicates get in (`UniqueKeys.PolicyIgnored`). Its comment
  calls it atomic, but it leaves the jobs before a failure stored without a message (`Batches.LeftBehind`,
  `Batches.NothingStored`, `Backend.Engine.PushBatch`).
- The state index runs oldest first while the scan path sorts newest first: pages differ, their union does not
  (`Listing.PagesDiffer`, `Listing.PagesAgreeIff`, `Listing.PathsAgree`).

## Model

| member | source | states |
|---|---|---|
| `Delivery.AtMostOneMessage` | internal/sqs/jobs.go:21-658 | in every run, whichever calls fail and messages are lost, no job has two messages; a job in the scheduled set, retry set or dead letter queue has none and is in the state that belongs there |
| `Delivery.RetryDeadLetterSafe` | internal/sqs/dead_letter.go:31-69 | retrying a dead letter keeps the message invariant if and only if nothing is retried, the marker is removed, or neither write after the failed removal happens |
| `Delivery.FailedRemovalDuplicates` | internal/sqs/dead_letter.go:45-69 | after two retries whose marker removal fails, the job has two messages |
| `Witnesses.DuplicateFromInit` | internal/sqs/dead_letter.go:45-69 | a run from the empty system into the dead letter queue, and two retries after it, give a job two messages |
| `Delivery.StalePromotionDuplicates` | internal/sqs/scheduling.go:21-64 | promoting an ID twice from one due list sends it twice; a fresh due list never holds it the second time |
| `Witnesses.StaleFromInit` | internal/sqs/scheduling.go:21-64 | a run from the empty system makes a scheduled job due, and promoting it twice from one list gives it two messages |
| `Delivery.NotBeforeDue` | internal/sqs/scheduling.go:13-126 | over whole faulty runs, a waiting job that is not cancelled keeps its marker and due time and has no message before that time |
| `Delivery.LeavesWaiting` | internal/sqs/scheduling.go:13-126 | a run that takes a job out of its set has an event that cancels the job, or one that promotes it from that set at a time not before it is due |
| `Deadlines.NotBeforeScheduled` | internal/sqs/jobs.go:115-146 | in every tolerated run from the empty system, a job pushed for a later time t has no message and is not promoted before t, even if cancelled; as long as it waits it is due exactly from t on; and it does wait, unless cancelled, if its record and marker could be stored |
| `Deadlines.NotBeforeBackoff` | internal/sqs/jobs.go:545-582 | in every tolerated run, an active job that a Nack makes retryable has no message and is not promoted before the clock of the Nack plus the backoff; as long as it waits it is due exactly from then on; and it does wait, unless cancelled, if its marker could be stored |
| `Delivery.MessagesAddressed` | internal/sqs/producer.go:15-52 | over whole faulty runs every message belongs to a stored job, is in that job's queue and carries its expiry |
| `Delivery.PushSafe` | internal/sqs/jobs.go:115-163 | a Push with any failing calls keeps the invariant and touches only its own job |
| `Delivery.DeliverSafe` | internal/sqs/jobs.go:215-266 | so does handling a received message, whatever state the record is in |
| `Delivery.AckSafe` | internal/sqs/jobs.go:279-342 | so does Ack |
| `Delivery.FailSafe` | internal/sqs/jobs.go:410-582 | so does a counted Nack: its delete precedes every row it adds |
| `Delivery.RequeueSafe` | internal/sqs/jobs.go:369-408 | so does a requeue |
| `Delivery.CancelSafe` | internal/sqs/jobs.go:608-658 | so does Cancel |
| `Delivery.PromoteSafe` | internal/sqs/scheduling.go:21-64 | so does a promotion: its marker goes before its message comes |
| `Lifecycle.ExactlyOnePlace` | internal/api/openapi.yaml:11-34 | in every fault-free run: scheduled iff in the scheduled set, retryable iff in the retry set, available or active with exactly one message (active holds its receipt handle), the others without one, cancelled with at most one |
| `Lifecycle.FinalStates` | internal/api/openapi.yaml:26-34 | over whole fault-free runs a completed record never changes, and a discarded one changes only by RetryDeadLetter of that job |
| `Lifecycle.CancelLeavesMessage` | internal/sqs/jobs.go:625-651 | a cancelled job is left without a message if and only if it was not available |
| `Lifecycle.CancelledComesBack` | internal/sqs/jobs.go:242-256 | the run cancel, receive, deliver makes a cancelled job active |
| `Witnesses.CancelledBackFromInit` | internal/sqs/jobs.go:242-256 | four fault-free steps from the empty system leave a cancelled job active |
| `Lifecycle.CancelledIsFinal` | internal/api/openapi.yaml:22-33 | in fault-free runs that cancel no available job, a cancelled record never changes again |
| `Lifecycle.CountersExact` | internal/state/dynamodb.go:480-499 | in fault-free runs the completed counter of every queue is the number of its completed records |
| `Lifecycle.OnlyAckCompletes` | internal/sqs/jobs.go:286-324 | a job becomes completed by an Ack of the active job and by nothing else |
| `Budget.RetryBudget` | internal/sqs/jobs.go:362-582 | attempt is the number of counted Nacks since push or dead letter retry, never above max(1, max_attempts), three by default, and equal to it only when discarded; the history lists exactly the errors reported with them, in order, each with the number of failures before it, its message and its type (else its code), and is numbered 0, 1, ... if every one carried an error; the record shows the last one until the job is completed |
| `Endings.AckedAgain` | internal/sqs/jobs.go:297-330 | after an Ack that ended a job, some run ends the job again if and only if the delete failed on a message that was there and the job has not expired |
| `Endings.EndsAgain` | internal/sqs/jobs.go:226-330 | a completed or discarded job can end again in some run if and only if it has not expired and has a message left or a dead letter marker |
| `Endings.EndingLeavesMessage` | internal/sqs/jobs.go:297-323 | an Ack leaves the message iff its delete fails on one that is there; a discard never does |
| `Endings.EndsOnce` | internal/sqs/jobs.go:279-596 | in fault-free runs a job ends at most once plus once per dead letter retry |
| `Endings.TerminalWithoutEnding` | internal/sqs/jobs.go:525-531 | the ways into a terminal state that do not advance the workflow: Cancel, an expired delivery, a dead letter marker that cannot be stored |
| `Replies.PushReplies` | internal/sqs/jobs.go:115-163 | a Push for now succeeds exactly when the job has a message, which carries its queue and expiry; one for a later time exactly when the job is scheduled for that time and its queue registered; a stored record is what was submitted |
| `Replies.AckReplies` | internal/sqs/jobs.go:279-342 | an Ack succeeds exactly when it makes an active job completed; the record then holds the given result, or the old one if none was given, and no error |
| `Replies.ResultKept` | internal/sqs/jobs.go:312-324 | over whole fault-free runs the record keeps that result |
| `Replies.SkipsIff` | internal/sqs/jobs.go:455-481 | an error skips the remaining attempts iff it says so or some pattern of the policy matches its type (its code if it has none) or its message |
| `Replies.NackReplies` | internal/sqs/jobs.go:410-582 | a counted failure discards the job iff the error skips the remaining attempts or none is left, and otherwise makes it retryable, either way without a message; the Nack succeeds exactly when state and marker are stored and can be reloaded, and then the job is a dead letter iff discarded under such a policy, or due after the backoff |
| `Replies.NackRefuses` | internal/sqs/jobs.go:345-362 | a Nack finds only stored jobs that can be read, refuses those that are not active, and then changes nothing |
| `Replies.RequeueReplies` | internal/sqs/jobs.go:369-408 | a requeue succeeds exactly when the job is available again and can be reloaded; attempt and errors are as before and its message is visible |
| `Replies.CancelReplies` | internal/sqs/jobs.go:608-658 | a Cancel succeeds exactly when the job can be read and is not terminal; each later call that succeeds does its part and no other |
| `Replies.DeliverReplies` | internal/sqs/jobs.go:221-266 | a message gives its job iff it has not expired, the job is stored, and update and reload succeed; then the job is active for the worker with the message as its handle |
| `Replies.RetryDeadLetterReplies` | internal/sqs/dead_letter.go:31-69 | only marked jobs that can be read are found, and then only a failing reload is reported; the job starts again without attempts and errors and is sent |
| `Replies.DeleteDeadLetterReplies` | internal/sqs/dead_letter.go:72-78 | succeeds exactly when it removes a marker, and changes nothing else |
| `Backend.Engine.Push` | internal/sqs/jobs.go:115-163 | call by call, Push has the net effect and reply of the protocol, for every combination of failing calls |
| `Backend.Engine.PushBatch` | internal/sqs/jobs.go:661-702 | the exact state and reply for every combination of failing calls and whatever SQS takes; all-or-nothing if and only if it succeeds or its first PutJob fails |
| `Backend.Engine.PutBatch` | internal/sqs/jobs.go:678-695 | storing stops at the first job that cannot be stored; everything before it is stored, and its own record if only the registration failed |
| `Backend.Engine.SendBatchToSQS` | internal/sqs/producer.go:56-114 | the messages sent are those of the requests SQS takes, a part of the batch, and all of it on success |
| `Backend.Engine.Ack` | internal/sqs/jobs.go:279-342 | Ack has the net effect and reply of the protocol and advances the workflow, with the result, exactly when it ends the job |
| `Backend.Engine.IsNonRetryable` | internal/sqs/jobs.go:455-481 | true iff the error says so or some pattern matches its type (its code if it has none) or its message |
| `Backend.Engine.Requeue` | internal/sqs/jobs.go:369-408 | requeue has the net effect and reply of the protocol: no attempt is counted |
| `Backend.Engine.Discard` | internal/sqs/jobs.go:490-543 | the exhausted branch has the net effect and reply of the protocol, and advances the workflow exactly when state and marker are stored |
| `Backend.Engine.Retry` | internal/sqs/jobs.go:545-582 | the retry branch has the net effect and reply of the protocol |
| `Backend.Engine.Nack` | internal/sqs/jobs.go:345-596 | Nack as a whole, with its rejections and the choice of branch; it advances the workflow exactly when it ends the job |
| `Backend.Engine.Cancel` | internal/sqs/jobs.go:608-658 | Cancel has the net effect and reply of the protocol, although it ignores every error after its read |
| `Backend.Engine.CancelMembers` | internal/sqs/workflows.go:187-194 | cancelling the members is a run of Cancel operations, after which every stored member whose cancellation met no failure is terminal |
| `Backend.Engine.RetryDeadLetter` | internal/sqs/dead_letter.go:31-69 | RetryDeadLetter has the net effect and reply of the protocol |
| `Backend.Engine.DeleteDeadLetter` | internal/sqs/dead_letter.go:72-78 | DeleteDeadLetter has the net effect and reply of the protocol |
| `Backend.Engine.GetDue` | internal/state/dynamodb.go:1112-1145 | an error, or exactly the IDs whose due time has come, each once |
| `Backend.Engine.PromoteOne` | internal/sqs/scheduling.go:21-64 | one promotion has the net effect and reply of the protocol |
| `Backend.Engine.PromoteAll` | internal/sqs/scheduling.go:13-126 | every job due at the start is tried once, whatever happens to the others, as a legal run; no error is reported iff the query succeeded and all of them have left the set and have a message |
| `Backend.Engine.DeliverOne` | internal/sqs/jobs.go:221-266 | handling a message has the net effect and reply of the protocol, for expired ones too |
| `Backend.Engine.DeliverBatch` | internal/sqs/jobs.go:215-266 | every message of a batch is handled, since the inner break abandons none, and the jobs added to the result are, in order, those of the messages that had not expired, were stored and met no failing call |
| `Backend.Engine.Drain` | internal/sqs/jobs.go:203-272 | the receive loop asks for 1 to 10 messages and never more than remain, adds exactly the jobs of the messages it received and could handle, stops short only on an empty answer, and ends because visible messages become fewer |
| `Backend.Engine.FetchHiding` | internal/sqs/jobs.go:166-276 | with a timeout of at least one second: at most count distinct jobs, in order exactly those of the received messages that had not expired, were stored and met no failing call, each active in the store for this worker with the handle of a hidden message; fewer than count only if every readable queue answered with nothing; a legal run of receipts and deliveries; nothing from a queue seen to be paused |
| `Backend.Engine.Fetch` | internal/sqs/jobs.go:166-276 | for every timeout: at most count jobs, from readable queues, and the message invariant kept; distinct jobs unless the timeout comes to zero seconds and more than one is asked for; from one second on exactly the jobs described for FetchHiding |
| `Fetching.RepeatsIff` | internal/sqs/jobs.go:189-211 | with a timeout of zero seconds and a deliverable message, all executions return distinct jobs if and only if at most one is asked for |
| `Fetching.Repeats` | internal/sqs/jobs.go:203-272 | SQS handing out the same message twice makes Fetch return its job twice |
| `Fetching.ZeroFetchBounds` | internal/sqs/jobs.go:170-272 | with a timeout of zero seconds Fetch still returns at most count jobs and keeps the message invariant |
| `Fetching.ZeroFetchReads` | internal/sqs/jobs.go:170-199 | with a timeout of zero seconds too, jobs come only from the queues that were asked for, have a URL and are not seen to be paused |
| `Batches.BatchIsRun` | internal/sqs/jobs.go:678-702 | whatever fails and whatever SQS takes, a batch has the effect of a legal run of single pushes |
| `Batches.BatchIsPushes` | internal/sqs/jobs.go:678-702 | storing all and sending some, in any order, equals pushing those one by one and the others with failing sends |
| `Batches.PutAllPermuted` | internal/sqs/jobs.go:678-695 | the order in which the jobs of a batch are stored does not matter |
| `Batches.NothingStored` | internal/sqs/jobs.go:678-695 | storing sends nothing, and leaves nothing behind if and only if the first PutJob fails |
| `Batches.LeftBehind` | internal/sqs/jobs.go:678-695 | the jobs before the first failure are stored and have no message |
| `Batches.ScheduleIgnored` | internal/sqs/jobs.go:661-702 | a successful batch leaves what single pushes of its jobs would leave if and only if none of them is scheduled for later |
| `Batches.SentTooSoon` | internal/sqs/jobs.go:678-702 | a job of a successful batch that is scheduled for later is available, with a message, before its time |
| `Crons.AtMostOnePush` | internal/sqs/crons.go:178-341 | over all interleavings of any number of schedulers, failing calls and crashes, a scheduled second causes at most one Push; with `skip`, at most one of the fired jobs that are not terminal has never been terminal, so that an overlap takes a job that came back |
| `Crons.NextRunMonotone` | internal/sqs/crons.go:320-337 | the next run changes only by a put of the holder of the lock on its old value, and only to a later second, later than the pass |
| `Crons.KeepsChained` | internal/state/dynamodb.go:889-910 | every step keeps the lock chain: snapshots are current or locked, and the lock holder is alone on the current second |
| `Crons.KeepsNoOverlap` | internal/sqs/crons.go:227-268 | with `skip`, every step keeps at most one live job that has never come back from a terminal state, and it is the recorded instance or the job the lock holder is pushing |
| `Overlaps.SkipHoldsIff` | internal/sqs/crons.go:227-268 | with `skip`, at most one fired job is live in every run in which only the given jobs come back from a terminal state, if and only if none is given |
| `Overlaps.RevivedOverlaps` | internal/sqs/crons.go:240-341 | two fired jobs are live: the first ends, the next second fires the second, and the first comes back |
| `Crons.StuckForGood` | internal/sqs/crons.go:213-225 | once the second is locked and nobody works on it, no run moves or fires the cron |
| `Firing.FireCronJobs` | internal/sqs/crons.go:178-341 | the next runs are listed first; then every cron gets its pass whatever happens to the others, each with the effect of an undisturbed run of the scheduler machine, and the first error is reported |
| `Firing.Cron.Fire` | internal/sqs/crons.go:188-337 | one iteration, call by call, equals a pass of the machine, and reports an error exactly in the listed cases, with disabled crons, unreadable next runs and undecodable templates |
| `Firing.PassFires` | internal/sqs/crons.go:209-337 | a pass pushes iff the cron is due, its lock free and taken, the overlap policy in favour and a job type given; an untroubled pass moves the cron on so that a second one does nothing |
| `Firing.QuietPass` | internal/sqs/crons.go:188-337 | a pass reports no error iff the cron is skipped, not due, locked by another instance, moved on, or to be fired without a type |
| `Firing.PassBlocks` | internal/sqs/crons.go:213-337 | a pass on an unlocked second leaves the cron blocked if and only if it takes the lock and does not move the cron on |
| `Firing.UntypedBlocksSilently` | internal/sqs/crons.go:294-296 | a template without a type blocks the cron and reports nothing |
| `Firing.StuckAtOnce` | internal/sqs/crons.go:311-318 | from registration, one pass whose SetCronInstance fails leaves the cron blocked with its second pushed |
| `Firing.ExpiredLockPushesAgain` | internal/state/dynamodb.go:889-910 | after the lock row of a fired second that was not moved on is gone, the next pass with the lock pushes it again if and only if the overlap policy is decided in favour and the cron has a type |
| `Firing.PushedTwice` | internal/sqs/crons.go:298-318 | from registration, one failed SetCronInstance and the expiry of one lock row push the same second twice, even under `skip` |
| `Firing.PassIsRun` | internal/sqs/crons.go:178-341 | a pass is a legal run of the machine, so it keeps what all runs keep |
| `Groups.CallbacksAtMostOnce` | internal/sqs/workflows.go:209-291 | over all interleavings, failing calls, crashes, cancellations and repeated endings, counters never exceed the calls behind them; if no member advances twice, callbacks fire at most once, only when all members have advanced, and then every defined one that fits the outcome, once, with on_complete first |
| `Groups.FiredAnnounces` | internal/sqs/workflows.go:346-370 | the callbacks of an outcome are on_complete first, on_success iff no member failed, on_failure iff one did, each once and only if defined |
| `GroupRuns.FiresOnceIff` | internal/sqs/workflows.go:273-290 | a batch with on_complete whose members all end fires at most once in every run if and only if no member ends twice |
| `Groups.ClosesTooSoon` | internal/sqs/workflows.go:273-283 | the call that closes a workflow with exact counters does so when all members have advanced if and only if no member has advanced twice |
| `GroupRuns.EndsTwiceClosesEarly` | internal/sqs/workflows.go:231-290 | a member that ends twice closes a batch of two and fires its callbacks while the other still runs |
| `Groups.ExactUnlessLost` | internal/sqs/workflows.go:209-273 | over all runs, the counters equal the numbers of calls about completed and about failed members if and only if every call got to its write, no write failed and none replaced counters its call had not read; when the writes are exact, some call accounts for all members iff as many calls wrote as there are members |
| `GroupRuns.LostUpdate` | internal/sqs/workflows.go:231-273 | two overlapping calls leave a two-job workflow running with one completion counted and every call ended |
| `GroupRuns.ReadFails` | internal/sqs/workflows.go:210-223 | a call that cannot read is not counted: no write fails or is lost, both members have ended, every call too, and the workflow is running with one of two counted |
| `GroupRuns.CloseFails` | internal/sqs/workflows.go:276-287 | a batch of one with exact counters fires its callbacks and stays running when the last update fails |
| `Groups.MissingMember` | internal/sqs/workflows.go:273-290 | unless another member advances twice, a member that never advances keeps the workflow from closing and the callbacks from firing |
| `GroupRuns.OneByOneLosesNothing` | internal/sqs/workflows.go:209-291 | calls that do not overlap between read and write lose nothing, over whole runs |
| `GroupRuns.CancelStops` | internal/sqs/workflows.go:174-290 | once a group or batch has been cancelled, no run writes its counters, overwrites its state or fires callbacks if and only if no call is past its read with something left to do |
| `GroupRuns.CancelTooLate` | internal/sqs/workflows.go:210-290 | a call that read before the cancellation finishes a batch after it and fires its callbacks |
| `GroupOutcomes.FinalOutcome` | internal/sqs/workflows.go:209-290 | if no member advanced twice and every call has ended, whatever failed, stopped or interleaved: a batch has fired on_complete and exactly one of the others, where defined, iff all members advanced, no update was lost, none but the write of the last call failed, and that call got to its end; without a cancellation the state is then completed or failed, by whether a member failed, iff the last update was also stored, and running otherwise |
| `GroupOutcomes.FinalCallbacks` | internal/sqs/workflows.go:270-370 | in the same runs: on_complete first, on_success iff no member failed, on_failure iff one did, each once and only if defined, when the workflow accounted for all members and the call went on; and otherwise none |
| `GroupRuns.Workflow.AdvanceWorkflow` | internal/sqs/workflows.go:209-291 | the group and batch branches have the net effect of an uninterrupted call, for every combination of failing calls; the call that accounts for all members of a batch adds on_complete first, on_success iff no member failed and on_failure iff one did, as far as defined, and no other call adds any |
| `GroupRuns.AdvanceNet` | internal/sqs/workflows.go:209-291 | that net effect is the one of the machine's steps, also for a member that has advanced before |
| `GroupRuns.AdvanceIsRun` | internal/sqs/workflows.go:209-291 | an uninterrupted call is a legal, serial run of the machine |
| `GroupRuns.Workflow.FireBatchCallbacks` | internal/sqs/workflows.go:346-370 | tests the callbacks in source order and adds those of the outcome, of which `FiredAnnounces` says which they are |
| `Chains.StepsInOrder` | internal/sqs/workflows.go:265-268 | in every run, whatever fails, interleaves or ends again, the pushed jobs are steps 0, 1, ... in order if and only if no two calls for one step have pushed |
| `ChainRuns.InOrderIff` | internal/sqs/workflows.go:209-268 | a chain whose steps all end pushes them in order in every run if and only if no step but the last ends twice |
| `ChainRuns.EndsTwicePushesTwice` | internal/sqs/workflows.go:209-268 | a step that ends twice has a run that pushes its successor twice |
| `Chains.CancelStops` | internal/sqs/workflows.go:174-268 | once the workflow has stopped running, no run stores an update or pushes a step if and only if no call is past its read |
| `ChainRuns.CancelTooLate` | internal/sqs/workflows.go:210-268 | a call that read before the cancellation pushes its step after it |
| `ChainRuns.CancelOverwritten` | internal/sqs/workflows.go:257-263 | a call for the last step overwrites `cancelled` with `completed` |
| `Chains.ParentsRight` | internal/sqs/workflows.go:310-318 | when no step ends twice, a job is given the in-order list of the non-empty results below it if and only if there are none, or the rows could be read for it and none of those results failed to be stored |
| `ChainRuns.ResultDropped` | internal/sqs/workflows.go:226-229 | the second step is given the first one's result only if both the store and the read succeed |
| `Chains.ChainOutcome` | internal/sqs/workflows.go:209-268 | when no step ends twice: steps in order, each after all earlier ones were acknowledged, and no early return without a failed update; without cancellation, completed + 1 steps are pushed before the last one ends iff no update failed, an acknowledged chain is completed iff no update, read or push failed and no call stopped, and a chain whose last pushed step was discarded has failed, with one failure counted, unless there was such a failure |
| `Completions.CompletedMeans` | internal/sqs/workflows.go:231-268 | in every run, whatever fails, interleaves or ends again: all steps were acknowledged iff the last one was; a completed chain has had at least as many acknowledgements as it has steps, and if no two are for one step, all steps were acknowledged |
| `Completions.CompletesTooSoon` | internal/sqs/workflows.go:257-263 | the update that completes a chain with an exact counter does so when all steps were acknowledged if and only if no step advanced the chain twice |
| `Completions.CompletesIff` | internal/sqs/workflows.go:209-268 | a chain whose steps all end stores `completed` only when all were acknowledged, in every run, if and only if no step but the last ends twice |
| `Completions.EndsTwiceCompletesEarly` | internal/sqs/workflows.go:231-263 | a first step that ends twice completes a chain of two while the second step has not ended |
| `ChainRuns.IgnoredUpdateStrands` | internal/sqs/workflows.go:265-268 | if the first of two updates fails, both steps are acknowledged, the early return is taken and the chain stays running with every call ended |
| `ChainRuns.AdvanceIsRun` | internal/sqs/workflows.go:209-268 | an uninterrupted call is a legal run of the machine |
| `ChainRuns.AdvanceNet` | internal/sqs/workflows.go:209-268 | the net effect proved of the method is that of the machine's steps |
| `ChainRuns.Workflow.CreateWorkflow` | internal/sqs/workflows.go:75-108 | creation pushes step 0 and nothing else; a failed Push leaves a workflow without a job |
| `ChainRuns.Workflow.AdvanceWorkflow` | internal/sqs/workflows.go:209-268 | the chain branches have that net effect, for every combination of failing calls |
| `ChainRuns.Workflow.EnqueueChainStep` | internal/sqs/workflows.go:294-343 | pushes step k with the stored results of the steps below k in order, none if they cannot be read, or nothing if there is no step k or its Push fails |
| `UniqueKeys.OneWinnerPerRow` | internal/state/dynamodb.go:534-553 | over all interleavings, failing calls and expiries, exactly one Push gets past SetUniqueKey per UNIQUE row, and the row names its job |
| `UniqueKeys.NobodyElseGetsIn` | internal/sqs/jobs.go:51-113 | while a row lasts, every other Push ends in an error or, with `ignore`, with the row owner's job, whatever the policy and the job states |
| `UniqueKeys.LookupDecides` | internal/sqs/jobs.go:51-98 | after both lookups, `ignore` answers with the existing job, `reject` refuses and `replace` goes on to cancel iff that job is stored in one of the given states, or as scheduled, available, active or retryable if none is given |
| `UniqueKeys.KeyDecides` | internal/sqs/jobs.go:87-113 | a Cancel that finds no job does not stop a Push, another error does; the key is set iff there is no row and the call reaches the store |
| `UniqueKeys.ReplaceLosesBoth` | internal/sqs/jobs.go:87-111 | `replace` cancels the existing job and is then refused as a duplicate |
| `UniqueKeys.Key.Admit` | internal/sqs/jobs.go:37-113 | undisturbed, a Push is let in iff there is no row and the key can be set; exactly which answer it gets otherwise, by the state of the existing job, the given states (all that are not terminal if none) and the calls that fail; and when `replace` cancels |
| `UniqueKeys.Key.PushEach` | internal/sqs/jobs.go:37-113 | single pushes with one key, one after the other: the first is let in if there is no row, and no other |
| `UniqueKeys.PolicyIgnored` | internal/sqs/jobs.go:661-702 | a batch takes the same jobs with one unique key as single pushes if and only if it has none, or one and no UNIQUE row exists; and it leaves the same row iff it has none or the row is there |
| `Table.EncodeInjective` | internal/state/dynamodb.go:18-31 | distinct rows of all kinds have distinct keys, for arbitrary IDs and names |
| `Table.LockKeyInjective` | internal/state/dynamodb.go:889-900 | name and timestamp can be read off a lock key even if the name contains `#` |
| `Table.RowsAreSeparate` | internal/state/dynamodb.go:18-31 | the table refines separate maps: a write or delete of one row changes no other |
| `Table.ScansSelectKinds` | internal/state/dynamodb.go:404-427 | the prefix scans select exactly the queues, crons, scheduled markers, retry markers and jobs |
| `Table.QueriesSelectKinds` | internal/state/dynamodb.go:710-794 | the partition queries select exactly the jobs and the results of one workflow |
| `Updates.BuildWorkflowUpdate` | internal/state/dynamodb.go:645-688 | for every update map and iteration order, placeholders are distinct and the expression overwrites exactly the given attributes |
| `Updates.BuildJobUpdate` | internal/state/dynamodb.go:192-243 | likewise with the state and the two index keys derived from it |
| `Updates.AppendClauses` | internal/state/dynamodb.go:202-213 | the clause loop numbers placeholders by map size without ever reusing one |
| `Updates.AssignPairs` | internal/state/dynamodb.go:645-688 | assigning the entries of a map one by one, in any order, overwrites with the map |
| `Indexes.AllIndexed` | internal/state/store.go:260-263 | after any sequence of writes every record carries the index keys of its queue, state and creation time |
| `Indexes.QueriesMatchRecords` | internal/state/dynamodb.go:295-375 | the GSI1 prefix query and the GSI2 query select a record iff it has that queue and state, and that state |
| `Indexes.CountsAreRight` | internal/state/dynamodb.go:356-375 | the count of a queue and state is the number of such records, whatever was written before |
| `Indexes.DueQueryIsDueScan` | internal/state/dynamodb.go:1090-1247 | in every reachable table the GSI3 query and the fallback scan select the same rows, and each names its job |
| `Listing.ListJobsByState` | internal/state/dynamodb.go:295-353 | the page is the window of the full index list, the total its length |
| `Listing.ScanJobs` | internal/state/admin.go:34-100 | the page is a window of a newest-first permutation of the records that pass the filters, the total their number |
| `Listing.FilteredCount` | internal/state/admin.go:67-80 | the scan keeps a record, with its multiplicity, iff it has the state, queue, type and worker asked for |
| `Listing.PagesTile` | internal/state/dynamodb.go:295-353 | consecutive pages neither overlap nor leave gaps |
| `Listing.PathsAgree` | internal/state/admin.go:20-100 | in every reachable store, for a state filter, both paths report the same total and, over all pages, the same multiset of records |
| `Listing.IndexIsStateFilter` | internal/state/admin.go:20-35 | in every reachable store the state index lists exactly the records of that state that the scan lists |
| `Listing.PagesAgreeIff` | internal/state/admin.go:86-100 | both paths agree page by page, in the creation times shown, if and only if one page holds everything or all times are equal (or pages are empty) |
| `Listing.PagesDiffer` | internal/state/admin.go:86-100 | two records and pages of one: the first pages differ |
| `Producer.SendBatch` | internal/sqs/producer.go:56-114 | every request has 1 to 10 entries of one queue with distinct entry IDs; on success each queue is sent its jobs in input order and the multiset of entries is the input; success iff SQS accepts all requests; a failed batch ends with the first refused request and tries no job twice |
| `Producer.TakenOfSent` | internal/sqs/producer.go:95-109 | what SQS takes, all of an accepted request and some of a refused one, is part of what was sent |
| `Producer.SendQueue` | internal/sqs/producer.go:69-111 | one queue's jobs in chunks of ten, the last one shorter: all of them in order, or a prefix that ends with the refused request |
| `Producer.GroupByQueue` | internal/sqs/producer.go:57-61 | a queue has a group iff it has jobs, and the group lists them in input order |
| `Producer.NothingLost` | internal/sqs/producer.go:56-114 | requests that give each queue its jobs hold the whole input, with multiplicity |
| `Broker.PanicsOnlyOnSecondClose` | internal/sqs/pubsub.go:34-98 | for every interleaving of publishers, subscribers and repeated unsubscribes, no send meets a closed channel and none is closed twice; the broker panics iff Close is called again |
| `Broker.ClosedIffGone` | internal/sqs/pubsub.go:68-98 | while Close does not hold the lock, a channel that nobody is just unsubscribing is open iff its subscription is in the set |
| `Broker.EventsDelivered` | internal/sqs/pubsub.go:34-49 | received and buffered events are the matching offers in order, less those that met 64 buffered events; a finished publish has offered its event exactly to the present subscribers that want it |

## Left out

- Backend.Engine.Fetch: no visibility timeout ends during the call, undecodable messages do not occur, and for a timeout of zero seconds the calls on one message fail alike each time; `Delivery.Safe` is asked of the world because it holds in every reachable one.
- Backend.Engine.FetchHiding: one of the two halves of Fetch; in the source both are one loop, with the timeout passed through.
- Backend.Engine.Receive: stands for SQS; an empty answer also stands for a failing call.
- Backend.Engine.GetDue: the query itself; its index and its fallback are compared in `Indexes.DueQueryIsDueScan`.
- Backend.Engine.PushBatch: job IDs are distinct and fresh, and validation of the requests is not modelled.
- Backend.Engine.Push: without the unique key, which is `UniqueKeys.Key.Admit` and the machine around it.
- Backend.Engine.Ack: returns the call of advanceWorkflow it makes (so do Discard and Nack); what that call does is in the workflow modules, and the jobs a workflow pushes are ordinary pushes of the engine.
- Producer.SendBatch: the lookup of queue URLs and the encoding of jobs succeed.
- Updates.BuildJobUpdate: the update map holds no index key and no other state, as at all call sites; values that cannot be marshalled do not occur.
- Firing.FireCronJobs: one scheduler at a time; interleaving is in `Crons`.
- ChainRuns.Workflow.AdvanceWorkflow: AddWorkflowJob is not modelled.
- GroupRuns.Workflow.AdvanceWorkflow: a Push of a callback that fails is only logged by the source and counts as fired here.
- GroupOutcomes.FinalOutcome: without a cancellation for the state; what follows a cancellation is in `GroupRuns.CancelStops`.
- CreateWorkflow of a group whose pushes fail midway: the members that were not pushed are members that never end.
- The broker, the interleaved part of crons, of workflows and of unique keys are state machines over single calls, since their point is interleaving; their locks and maps are values there.
- RegisterCron, DeleteCron, cron expressions and time zones: only Next(now) > now is used.
- FIFO queues, message attributes and the redrive policy of SQS.
- RecordToJob and JobToRecord beyond the index keys; time stamps such as started_at.
- ListDeadLetter, ListAllWorkers, heartbeats, checkpoints, worker directives, queue statistics: single reads or writes.
- DynamoDB paging of queries, real TTL timing (expiry is an explicit step or excluded) and table creation.
- HTTP, gRPC, WebSocket and server-sent-event layers, the admin UI, metrics, tracing and logging.
