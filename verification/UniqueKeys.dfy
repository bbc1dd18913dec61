/** Unique jobs: Push calls with one fingerprint. */
module UniqueKeys {
  import opened Domain

  // Any number of calls interleave store call by store call, with failing calls and with
  // expiry of the UNIQUE row.

  datatype Policy = Reject | Ignore | Replace | Unknown

  /** A Push with a unique policy: its job, what to do on a conflict, and the states
      in which an existing job counts (none given: every non-terminal state). */
  datatype Request = Request(id: JobId, policy: Policy, states: set<JobState>)

  /** The existing job, an error for a duplicate (which names the existing job if it was
      looked up) or another error. */
  datatype Answer = Existing(id: JobId) | Duplicate(of: Option<JobId>) | Failure

  /** Where a Push is. `Won` has set the key and goes on to enqueue its job. */
  datatype Phase =
    | Start
    | Found(existing: JobId)
    | Cancelling(existing: JobId)
    | Ready
    | Won
    | Returned(answer: Answer)

  /** `row` is the owner named in the UNIQUE row, `jobs` the stored job states.
      `owners` lists the calls that set the key, `expired` counts expired rows. */
  datatype State = State(
    requests: seq<Request>,
    row: Option<JobId>,
    jobs: map<JobId, JobState>,
    phases: map<nat, Phase>,
    owners: seq<nat>,
    expired: nat)

  predicate Fresh(u: State) {
    u.row == None && u.phases == map[] && u.owners == [] && u.expired == 0
  }

  function PhaseOf(u: State, c: nat): Phase {
    if c in u.phases then u.phases[c] else Start
  }

  function At(u: State, c: nat, p: Phase): State {
    u.(phases := u.phases[c := p])
  }

  predicate Relevant(r: Request, s: JobState) {
    if r.states != {} then s in r.states else !s.Terminal()
  }

  datatype CancelResult = CancelOk | CancelNotFound | CancelError

  datatype Step =
    | GetKey(c: nat, ok: bool)
    | GetExisting(c: nat, ok: bool)
    | CancelExisting(c: nat, result: CancelResult)
    | SetKey(c: nat, ok: bool)
    | JobMoves(id: JobId, state: JobState)
    | Expire

  predicate Enabled(u: State, e: Step) {
    match e
    case GetKey(c, _) => c < |u.requests| && PhaseOf(u, c).Start?
    case GetExisting(c, _) => c < |u.requests| && PhaseOf(u, c).Found?
    case CancelExisting(c, result) =>
      && c < |u.requests| && PhaseOf(u, c).Cancelling?
      && (result == CancelOk ==> var x := PhaseOf(u, c).existing; x in u.jobs && !u.jobs[x].Terminal())
    case SetKey(c, _) => c < |u.requests| && PhaseOf(u, c).Ready?
    case JobMoves(_, _) => true
    case Expire => u.row.Some?
  }

  function Apply(u: State, e: Step): State
    requires Enabled(u, e)
  {
    match e
    case GetKey(c, ok) => At(u, c, if ok && u.row.Some? then Found(u.row.value) else Ready)
    case GetExisting(c, ok) =>
      var r, x := u.requests[c], PhaseOf(u, c).existing;
      At(u, c,
         if !ok || x !in u.jobs || !Relevant(r, u.jobs[x]) then Ready
         else match r.policy
              case Reject => Returned(Duplicate(Some(x)))
              case Ignore => Returned(Existing(x))
              case Replace => Cancelling(x)
              case Unknown => Ready)
    case CancelExisting(c, result) =>
      var x := PhaseOf(u, c).existing;
      (match result
       case CancelOk => At(u, c, Ready).(jobs := u.jobs[x := Cancelled])
       case CancelNotFound => At(u, c, Ready)
       case CancelError => At(u, c, Returned(Failure)))
    case SetKey(c, ok) =>
      if !ok then At(u, c, Returned(Failure))
      else if u.row.Some? then At(u, c, Returned(Duplicate(None)))
      else At(u, c, Won).(row := Some(u.requests[c].id), owners := u.owners + [c])
    case JobMoves(id, state) => u.(jobs := u.jobs[id := state])
    case Expire => u.(row := None, expired := u.expired + 1)
  }

  predicate Legal(u: State, run: seq<Step>)
    decreases |run|
  {
    run == [] || (Enabled(u, run[0]) && Legal(Apply(u, run[0]), run[1..]))
  }

  function Exec(u: State, run: seq<Step>): State
    requires Legal(u, run)
    decreases |run|
  {
    if run == [] then u else Exec(Apply(u, run[0]), run[1..])
  }

  ghost predicate IsOwner(u: State, id: JobId) {
    exists k :: 0 <= k < |u.owners| && u.owners[k] < |u.requests| && u.requests[u.owners[k]].id == id
  }

  /** What a call knows or answers about an existing job is about a key owner. */
  ghost predicate PhaseOk(u: State, c: nat, p: Phase) {
    match p
    case Found(x) => IsOwner(u, x)
    case Cancelling(x) => IsOwner(u, x)
    case Won => c in u.owners
    case Returned(Existing(x)) => IsOwner(u, x)
    case _ => true
  }

  /** One winner per row, the present row names the last one, and winners are distinct. */
  ghost predicate Owned(u: State) {
    && |u.owners| == u.expired + (if u.row.Some? then 1 else 0)
    && (u.row.Some? ==>
          u.owners[|u.owners| - 1] < |u.requests| && u.row.value == u.requests[u.owners[|u.owners| - 1]].id)
    && (forall c | c in u.owners :: PhaseOf(u, c).Won?)
    && (forall i, j | 0 <= i < j < |u.owners| :: u.owners[i] != u.owners[j])
    && (forall c | c in u.phases :: PhaseOk(u, c, u.phases[c]))
  }

  lemma OwnersGrow(u: State, e: Step, id: JobId)
    requires Enabled(u, e) && IsOwner(u, id)
    ensures IsOwner(Apply(u, e), id)
  {
    var k :| 0 <= k < |u.owners| && u.owners[k] < |u.requests| && u.requests[u.owners[k]].id == id;
    assert Apply(u, e).owners[k] == u.owners[k];
  }

  lemma KeepsPhaseOk(u: State, e: Step, c: nat)
    requires Owned(u) && Enabled(u, e) && c in Apply(u, e).phases
    ensures PhaseOk(Apply(u, e), c, Apply(u, e).phases[c])
  {
    forall id | IsOwner(u, id) ensures IsOwner(Apply(u, e), id) { OwnersGrow(u, e, id); }
    if c in u.phases { assert PhaseOk(u, c, u.phases[c]); }
    if e.GetKey? && u.row.Some? {
      assert u.owners[|u.owners| - 1] < |u.requests|;
      assert IsOwner(u, u.row.value);
    }
    if e.SetKey? && e.ok && u.row.None? { assert e.c in Apply(u, e).owners; }
  }

  lemma KeepsOwned(u: State, e: Step)
    requires Owned(u) && Enabled(u, e)
    ensures Owned(Apply(u, e))
  {
    var u' := Apply(u, e);
    forall c | c in u'.phases ensures PhaseOk(u', c, u'.phases[c]) { KeepsPhaseOk(u, e, c); }
  }

  lemma {:induction false} RunOwned(u: State, run: seq<Step>)
    requires Owned(u) && Legal(u, run)
    ensures Owned(Exec(u, run))
    decreases |run|
  {
    if run != [] {
      KeepsOwned(u, run[0]);
      RunOwned(Apply(u, run[0]), run[1..]);
    }
  }

  /** Over all interleavings exactly one Push gets past SetUniqueKey per UNIQUE row,
      and the row names its job. */
  lemma OneWinnerPerRow(u: State, run: seq<Step>)
    requires Fresh(u) && Legal(u, run)
    ensures var u' := Exec(u, run);
            && |u'.owners| == u'.expired + (if u'.row.Some? then 1 else 0)
            && (forall c :: PhaseOf(u', c).Won? <==> c in u'.owners)
            && (u'.row.Some? ==>
                  var c := u'.owners[|u'.owners| - 1]; c < |u'.requests| && u'.row.value == u'.requests[c].id)
  {
    RunOwned(u, run);
    var u' := Exec(u, run);
    forall c | PhaseOf(u', c).Won? ensures c in u'.owners { assert PhaseOk(u', c, u'.phases[c]); }
  }

  /** How a Push that starts under a row can end: `ignore` with the owner's job, or in
      an error. */
  ghost predicate ShutOut(u: State, c: nat) {
    match PhaseOf(u, c)
    case Start => true
    case Found(x) => u.row == Some(x)
    case Cancelling(x) => c < |u.requests| && u.requests[c].policy == Replace && u.row == Some(x)
    case Ready => true
    case Won => false
    case Returned(Existing(x)) => c < |u.requests| && u.requests[c].policy == Ignore && u.row == Some(x)
    case Returned(_) => true
  }

  /** While one row lasts, whatever the states of the jobs and whatever the policy,
      no other Push gets in: not even `replace`, and not even when the owner's job has
      reached a state that does not count. */
  lemma {:induction false} NobodyElseGetsIn(u: State, run: seq<Step>, c: nat)
    requires u.row.Some? && Legal(u, run) && ShutOut(u, c) && forall e | e in run :: !e.Expire?
    ensures Exec(u, run).row == u.row && Exec(u, run).owners == u.owners && ShutOut(Exec(u, run), c)
    decreases |run|
  {
    if run != [] {
      assert run[0] in run && forall e | e in run[1..] :: e in run;
      NobodyElseGetsIn(Apply(u, run[0]), run[1..], c);
    }
  }

  /** `replace` cancels the existing job and then fails on the row that Cancel leaves
      in place. */
  lemma ReplaceLosesBoth(u: State, c: nat)
    requires u.row.Some? && u.row.value in u.jobs && c < |u.requests| && PhaseOf(u, c).Start?
    requires u.requests[c].policy == Replace && Relevant(u.requests[c], u.jobs[u.row.value])
    requires !u.jobs[u.row.value].Terminal()
    ensures var run := [GetKey(c, true), GetExisting(c, true), CancelExisting(c, CancelOk), SetKey(c, true)];
            && Legal(u, run)
            && var u' := Exec(u, run);
               && u'.jobs == u.jobs[u.row.value := Cancelled]
               && PhaseOf(u', c) == Returned(Duplicate(None)) && u'.owners == u.owners
  {
    var run := [GetKey(c, true), GetExisting(c, true), CancelExisting(c, CancelOk), SetKey(c, true)];
    var u1 := Apply(u, run[0]);
    var u2 := Apply(u1, run[1]);
    var u3 := Apply(u2, run[2]);
    var u4 := Apply(u3, run[3]);
    assert run[3..][1..] == [] && run[2..][1..] == run[3..] && run[1..][1..] == run[2..];
    assert Legal(u4, []) && Exec(u4, []) == u4;
    assert Legal(u3, run[3..]) && Exec(u3, run[3..]) == u4;
    assert Legal(u2, run[2..]) && Exec(u2, run[2..]) == u4;
    assert Legal(u1, run[1..]) && Exec(u1, run[1..]) == u4;
  }

  /** The row names a stored job in one of the given states, or in a state that is not
      terminal if none is given. */
  ghost predicate Meets(u: State, r: Request) {
    && u.row.Some? && u.row.value in u.jobs
    && u.jobs[u.row.value] in if r.states != {} then r.states else {Scheduled, Available, Active, Retryable}
  }

  /** What a Push does after the lookups: a Cancel that finds no job does not stop it, any
      other error does; and the key is set if and only if there is no row and the call
      reaches the store. */
  lemma KeyDecides(u: State, c: nat, e: Step)
    requires Enabled(u, e) && ((e.CancelExisting? && e.c == c) || (e.SetKey? && e.c == c))
    ensures var p := PhaseOf(Apply(u, e), c);
            && (e.CancelExisting? ==> p == if e.result == CancelError then Returned(Failure) else Ready)
            && (e.SetKey? ==> p == if !e.ok then Returned(Failure)
                                   else if u.row.Some? then Returned(Duplicate(None)) else Won)
  {}

  /** What a Push does whose two lookups succeed undisturbed. */
  lemma LookupDecides(u: State, c: nat)
    requires c < |u.requests| && PhaseOf(u, c).Start? && u.row.Some?
    ensures var run, r, x := [GetKey(c, true), GetExisting(c, true)], u.requests[c], u.row.value;
            && Legal(u, run)
            && var p := PhaseOf(Exec(u, run), c);
               && (p == Returned(Existing(x)) <==> r.policy == Ignore && Meets(u, r))
               && (p == Returned(Duplicate(Some(x))) <==> r.policy == Reject && Meets(u, r))
               && (p == Cancelling(x) <==> r.policy == Replace && Meets(u, r))
               && (p == Ready <==> r.policy == Unknown || !Meets(u, r))
  {
    var run := [GetKey(c, true), GetExisting(c, true)];
    var u1 := Apply(u, run[0]);
    var u2 := Apply(u1, run[1]);
    assert run[1..][1..] == [] && Legal(u2, []) && Exec(u2, []) == u2;
    assert Legal(u1, run[1..]) && Exec(u1, run[1..]) == u2;
  }

  // ---------- batches ----------

  /** The requests that single pushes with one key let in, one after the other, when no call
      fails, ... */
  function LetIn(row: Option<JobId>, rs: seq<Request>): seq<Request>
    decreases |rs|
  {
    if rs == [] then []
    else if row.None? then [rs[0]] + LetIn(Some(rs[0].id), rs[1..])
    else LetIn(row, rs[1..])
  }

  /** ... and the row they leave. */
  function RowAfter(row: Option<JobId>, rs: seq<Request>): Option<JobId> {
    if row.Some? || rs == [] then row else Some(rs[0].id)
  }

  lemma {:induction false} NobodyUnderRow(row: Option<JobId>, rs: seq<Request>)
    requires row.Some?
    ensures LetIn(row, rs) == []
    decreases |rs|
  {
    if rs != [] { NobodyUnderRow(row, rs[1..]); }
  }

  /** PushBatch looks at no unique policy: it takes all of its jobs and leaves the row alone.
      It takes the same jobs as single pushes if and only if it has at most one job with
      the key and no row is there; and it leaves the same row only if it has none or the
      row is there. */
  lemma PolicyIgnored(row: Option<JobId>, rs: seq<Request>)
    ensures LetIn(row, rs) == rs <==> rs == [] || (row.None? && |rs| == 1)
    ensures RowAfter(row, rs) == row <==> rs == [] || row.Some?
    ensures LetIn(row, rs) == rs && RowAfter(row, rs) == row <==> rs == []
  {
    if rs != [] && row.None? { NobodyUnderRow(Some(rs[0].id), rs[1..]); }
    if row.Some? { NobodyUnderRow(row, rs); }
  }

  // ---------- one call at a time ----------

  /** A relevant existing job in state `s` ends the Push: rejected, answered with, or in a
      state that Cancel refuses. */
  predicate Stops(r: Request, cancel: bool, s: JobState) {
    match r.policy
    case Reject => true
    case Ignore => true
    case Replace => cancel && s in {Completed, Cancelled, Discarded}
    case Unknown => false
  }

  /** The part of Push that deals with the unique key, for one fingerprint. */
  class Key {
    var row: Option<JobId>
    var jobs: map<JobId, JobState>

    /** The row names job `x`, which is stored in one of the states given with the request,
        or not yet terminal if none is given. */
    predicate Counts(r: Request, x: JobId)
      reads this
    {
      && row == Some(x) && x in jobs
      && jobs[x] in if r.states != {} then r.states else {Scheduled, Available, Active, Retryable}
    }

    /** `read` tells whether both lookups succeed, `cancel` whether Cancel finds the
        job, `stored` whether SetUniqueKey reaches the store. A Push is let in exactly
        when there is no row, whatever its policy and the state of the owner's job;
        `replace` cancels that job all the same. */
    method Admit(r: Request, read: bool, cancel: bool, stored: bool) returns (refusal: Option<Answer>)
      modifies this
      ensures refusal.None? <==> old(row).None? && stored
      ensures !(old(row).Some? && read && old(Counts(r, row.value)) && Stops(r, cancel, old(jobs)[old(row).value])) ==>
                refusal == if !stored then Some(Failure) else if old(row).Some? then Some(Duplicate(None)) else None
      ensures old(row).Some? && read && old(Counts(r, row.value)) && Stops(r, cancel, old(jobs)[old(row).value]) ==>
                refusal == match r.policy
                           case Reject => Some(Duplicate(old(row)))
                           case Ignore => Some(Existing(old(row).value))
                           case _ => Some(Failure)
      ensures row == if refusal.None? then Some(r.id) else old(row)
      ensures jobs == if read && r.policy == Replace && cancel && old(row).Some? && old(Counts(r, row.value))
                         && old(jobs)[old(row).value] in {Scheduled, Available, Active, Retryable}
                      then old(jobs)[old(row).value := Cancelled] else old(jobs)
    {
      if read && row.Some? && row.value in jobs && Relevant(r, jobs[row.value]) {
        match r.policy {
          case Reject => return Some(Duplicate(row));
          case Ignore => return Some(Existing(row.value));
          case Replace =>
            if cancel {
              if jobs[row.value].Terminal() { return Some(Failure); }
              jobs := jobs[row.value := Cancelled];
            }
          case Unknown =>
        }
      }
      if !stored { return Some(Failure); }
      if row.Some? { return Some(Duplicate(None)); }
      row := Some(r.id);
      return None;
    }

    /** Single pushes with this key, one after the other. */
    method PushEach(rs: seq<Request>) returns (admitted: seq<Request>)
      modifies this
      ensures admitted == LetIn(old(row), rs) && row == RowAfter(old(row), rs)
    {
      admitted := [];
      ghost var first := row;
      for k := 0 to |rs|
        invariant admitted + LetIn(row, rs[k..]) == LetIn(first, rs)
        invariant row == RowAfter(first, rs[..k])
      {
        assert rs[k..][0] == rs[k] && rs[k..][1..] == rs[k + 1..];
        var refusal := Admit(rs[k], true, true, true);
        if refusal.None? {
          admitted := admitted + [rs[k]];
        }
      }
      assert rs[..|rs|] == rs;
    }
  }
}
