/** The retry budget of a job, in fault-free runs. */
module Budget {
  import opened Domain
  import opened Protocol
  import opened Delivery
  import opened Lifecycle

  /** Failures counted since the job was pushed or retried from the dead letter queue, and
      the errors reported with them, each with the number of failures before it and with
      its type, or else its code. */
  datatype Tally = Tally(nacks: nat, errors: seq<ErrorEntry>)

  function Count(w: World, e: Event, id: JobId, t: Tally): Tally {
    match e.op
    case PushOp(j, _) => if j == id then Tally(0, []) else t
    case RetryDeadLetterOp(j) => if j == id && id in w.dlq then Tally(0, []) else t
    case NackOp(j, err, requeue, _, _) =>
      if j == id && !requeue && id in w.jobs && w.jobs[id].state == Active
      then Failure(t, err) else t
    case _ => t
  }

  function Failure(t: Tally, err: Option<JobError>): Tally {
    if err.None? then Tally(t.nacks + 1, t.errors)
    else
      var e := err.value;
      var entry := ErrorEntry(t.nacks, e.message, if e.typ == "" then e.code else e.typ, e.retryable);
      Tally(t.nacks + 1, t.errors + [entry])
  }

  function Tallied(w: World, run: seq<Event>, id: JobId, t: Tally): Tally
    decreases |run|
  {
    if run == [] then t else Tallied(Apply(w, run[0]), run[1..], id, Count(w, run[0], id, t))
  }

  function Allowance(r: Job): int {
    match r.maxAttempts
    case None => 3
    case Some(n) => if n < 1 then 1 else n
  }

  /** The error the record shows: the last one reported, until the job is completed. */
  function Shown(r: Job, errors: seq<ErrorEntry>): Option<ErrorEntry> {
    if r.state == Completed || errors == [] then None else Some(errors[|errors| - 1])
  }

  ghost predicate Increasing(h: seq<ErrorEntry>, bound: nat) {
    && (forall i, j | 0 <= i < j < |h| :: h[i].attempt < h[j].attempt)
    && (forall i | 0 <= i < |h| :: h[i].attempt < bound)
  }

  ghost predicate Within(r: Job, t: Tally) {
    && |t.errors| <= r.attempt == t.nacks <= Allowance(r)
    && r.history == t.errors && r.error == Shown(r, t.errors)
    && Increasing(r.history, r.attempt)
    && (r.state != Discarded ==> r.attempt < Allowance(r))
  }

  lemma FailStaysWithin(r: Job, err: Option<JobError>, last: bool, t: Tally)
    requires Within(r, t) && r.state == Active
    requires !last ==> r.attempt + 1 < MaxAttempts(r)
    ensures Within(Failed(r, err).(state := if last then Discarded else Retryable),
                   Failure(t, err))
  {}

  lemma NackStaysWithin(w: World, e: Event, t: Tally)
    requires Settled(w) && FaultFree(e) && e.op.NackOp?
    requires e.op.id in w.jobs && Within(w.jobs[e.op.id], t)
    ensures e.op.id in Apply(w, e).jobs && Within(Apply(w, e).jobs[e.op.id], Count(w, e, e.op.id, t))
  {
    var r := w.jobs[e.op.id];
    if r.state == Active && !e.op.requeue {
      FailStaysWithin(r, e.op.err, Exhausted(r, e.op.err, e.op.matches), t);
    }
  }

  lemma SameCounters(w: World, e: Event, id: JobId)
    requires Settled(w) && Enabled(w, e.op) && FaultFree(e) && id in w.jobs
    requires !(e.op.NackOp? && e.op.id == id) && e.op != RetryDeadLetterOp(id)
    ensures id in Apply(w, e).jobs
    ensures var r, r' := w.jobs[id], Apply(w, e).jobs[id];
            && r'.attempt == r.attempt && r'.history == r.history && r'.maxAttempts == r.maxAttempts
            && r'.error == (if r'.state == Completed && r.state != Completed then None else r.error)
            && (r.state == Discarded ==> r'.state == Discarded) && (r.state == Completed ==> r'.state == Completed)
  {
    KeepsTerminal(w, e, id);
    if Subject(e.op).Some? && Subject(e.op) != Some(id) {
      ApplyTouches(w, e);
    }
  }

  /** Where the counting starts. */
  lemma StartsWithin(w: World, e: Event, id: JobId, t: Tally)
    requires Settled(w) && Enabled(w, e.op) && FaultFree(e) && (id in w.jobs ==> Within(w.jobs[id], t))
    requires id !in w.jobs || e.op == RetryDeadLetterOp(id)
    ensures id in Apply(w, e).jobs ==> Within(Apply(w, e).jobs[id], Count(w, e, id, t))
  {
    if Subject(e.op).Some? && Subject(e.op) != Some(id) { ApplyTouches(w, e); }
  }

  lemma StaysWithin(w: World, e: Event, id: JobId, t: Tally)
    requires Settled(w) && Enabled(w, e.op) && FaultFree(e)
    requires id in w.jobs ==> Within(w.jobs[id], t)
    ensures id in Apply(w, e).jobs ==> Within(Apply(w, e).jobs[id], Count(w, e, id, t))
  {
    if id !in w.jobs || e.op == RetryDeadLetterOp(id) {
      StartsWithin(w, e, id, t);
    } else if e.op.NackOp? && e.op.id == id {
      NackStaysWithin(w, e, t);
    } else {
      SameCounters(w, e, id);
    }
  }

  lemma {:induction false} RunStaysWithin(w: World, run: seq<Event>, id: JobId, t: Tally)
    requires Settled(w) && Legal(w, run) && forall e | e in run :: FaultFree(e)
    requires id in w.jobs ==> Within(w.jobs[id], t)
    ensures id in Exec(w, run).jobs ==> Within(Exec(w, run).jobs[id], Tallied(w, run, id, t))
    decreases |run|
  {
    if run != [] {
      StaysWithin(w, run[0], id, t);
      ApplySettles(w, run[0]);
      RunStaysWithin(Apply(w, run[0]), run[1..], id, Count(w, run[0], id, t));
    }
  }

  lemma {:induction false} Squeezed(h: seq<ErrorEntry>, i: nat)
    requires Increasing(h, |h|) && i < |h|
    ensures h[i].attempt == i
  {
    AtLeast(h, i);
    AtMost(h, i);
  }

  lemma {:induction false} AtLeast(h: seq<ErrorEntry>, i: nat)
    requires Increasing(h, |h|) && i < |h|
    ensures h[i].attempt >= i
  {
    if i > 0 { AtLeast(h, i - 1); }
  }

  lemma {:induction false} AtMost(h: seq<ErrorEntry>, i: nat)
    requires Increasing(h, |h|) && i < |h|
    ensures h[i].attempt <= i
    decreases |h| - i
  {
    if i + 1 < |h| { AtMost(h, i + 1); }
  }

  /** The attempt counter is the number of counted failures since the push or the
      last dead letter retry; it never exceeds the allowance and only a discarded
      job has used it up. The history lists the errors reported with them, in order, and
      the record shows the last one until it is completed. If every failure carried an
      error they are numbered 0, 1, ... */
  lemma RetryBudget(run: seq<Event>, id: JobId)
    requires Legal(INIT, run) && forall e | e in run :: FaultFree(e)
    requires id in Exec(INIT, run).jobs
    ensures var r, t := Exec(INIT, run).jobs[id], Tallied(INIT, run, id, Tally(0, []));
            && r.attempt == t.nacks <= Allowance(r)
            && (r.attempt == Allowance(r) ==> r.state == Discarded)
            && r.history == t.errors && |t.errors| <= t.nacks
            && r.error == Shown(r, t.errors)
            && (|t.errors| == t.nacks ==> forall i | 0 <= i < |r.history| :: r.history[i].attempt == i)
  {
    RunStaysWithin(INIT, run, id, Tally(0, []));
    var r := Exec(INIT, run).jobs[id];
    if |r.history| == r.attempt {
      forall i | 0 <= i < |r.history| ensures r.history[i].attempt == i { Squeezed(r.history, i); }
    }
  }
}
