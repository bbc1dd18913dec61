/** FireCronJobs as one scheduler runs it. */
module Firing {
  import opened Domain
  import C = Crons

  // A loop over the crons that goes on after an error and reports the first one. Undisturbed,
  // each iteration is a pass of the interleaving machine in module Crons.

  /** What happens in a pass over one cron: the calls that succeed, the ID of the
      pushed job, and the recomputed schedule if the expression parses. */
  datatype Calls = Calls(
    lock: bool, getInstance: bool, getJob: bool, putJob: bool, restOfPush: bool, setInstance: bool, putCron: bool,
    job: JobId, nxt: Option<int>)

  /** The next step of an instance, by its phase. */
  function NextStep(p: C.Phase, s: nat, x: Calls): C.Step {
    match p
    case Idle => C.List(s)
    case Listed(_) => C.ReadClock(s)
    case Timed(_, _) => C.AcquireLock(s, x.lock)
    case Locked(_, _) => C.GetInstance(s, x.getInstance)
    case Checking(_, _, _) => C.GetJob(s, x.getJob)
    case Skipping(_, _) => C.PutSkipped(s, x.putCron, x.nxt)
    case Cleared(_, _) => C.PutJob(s, x.putJob, x.job)
    case Pushing(_, _, _) => C.FinishPush(s, x.restOfPush)
    case Pushed(_, _, _) => C.SetInstance(s, x.setInstance)
    case Recorded(_, _) => C.PutCron(s, x.putCron, x.nxt)
  }

  function Rank(p: C.Phase): nat {
    match p
    case Idle => 0
    case Listed(_) => 9
    case Timed(_, _) => 8
    case Locked(_, _) => 7
    case Checking(_, _, _) => 6
    case Skipping(_, _) => 5
    case Cleared(_, _) => 4
    case Pushing(_, _, _) => 3
    case Pushed(_, _, _) => 2
    case Recorded(_, _) => 1
  }

  /** Job IDs are fresh, and a recomputed schedule is later than the pass. */
  predicate Ready(c: C.State, s: nat, x: Calls) {
    var p := C.PhaseOf(c, s);
    && (Rank(p) >= 4 ==> x.job !in c.fired)
    && (!p.Idle? ==> C.Later(x.nxt, if p.Listed? then c.clock else p.now))
  }

  /** The instance takes its next step. */
  function Step(c: C.State, s: nat, x: Calls): (c': C.State)
    requires Ready(c, s, x) && !C.PhaseOf(c, s).Idle?
    ensures Ready(c', s, x) && Rank(C.PhaseOf(c', s)) < Rank(C.PhaseOf(c, s))
  {
    StepEnabled(c, s, x);
    C.Apply(c, NextStep(C.PhaseOf(c, s), s, x))
  }

  lemma StepEnabled(c: C.State, s: nat, x: Calls)
    requires Ready(c, s, x) && !C.PhaseOf(c, s).Idle?
    ensures C.Enabled(c, NextStep(C.PhaseOf(c, s), s, x))
  {}

  /** The instance completes its pass undisturbed. */
  function Complete(c: C.State, s: nat, x: Calls): C.State
    requires Ready(c, s, x)
    decreases Rank(C.PhaseOf(c, s))
  {
    if C.PhaseOf(c, s).Idle? then c else Complete(Step(c, s, x), s, x)
  }

  lemma Onward(c: C.State, s: nat, x: Calls)
    requires Ready(c, s, x) && !C.PhaseOf(c, s).Idle?
    ensures Complete(c, s, x) == Complete(Step(c, s, x), s, x)
  {}

  predicate Fresh(c: C.State, x: Calls) {
    x.job !in c.fired && C.Later(x.nxt, c.clock)
  }

  /** A whole pass. */
  function Pass(c: C.State, s: nat, x: Calls): C.State
    requires C.PhaseOf(c, s).Idle? && Fresh(c, x)
  {
    Complete(C.Apply(c, C.List(s)), s, x)
  }

  /** A pass is a run of the machine, so it keeps everything that runs keep. */
  lemma {:induction false} CompleteIsRun(c: C.State, s: nat, x: Calls) returns (run: seq<C.Step>)
    requires Ready(c, s, x)
    ensures C.Legal(c, run) && C.Exec(c, run) == Complete(c, s, x) && forall e | e in run :: !e.Revive?
    decreases Rank(C.PhaseOf(c, s))
  {
    if C.PhaseOf(c, s).Idle? {
      run := [];
    } else {
      var rest := CompleteIsRun(Step(c, s, x), s, x);
      run := [NextStep(C.PhaseOf(c, s), s, x)] + rest;
      assert run[1..] == rest;
    }
  }

  /** The previous instance blocks the cron. */
  predicate Blocked(c: C.State) {
    c.cfg.skip && c.instance.Some? && c.instance.value in c.live
  }

  predicate DueNow(c: C.State) {
    c.cfg.entry.Usable? && c.next * 1000 <= c.clock
  }

  /** A due cron whose second is not locked, with the lock acquired. */
  predicate Won(c: C.State, x: Calls) {
    DueNow(c) && x.lock && c.next !in c.locks
  }

  /** The overlap policy could be decided. */
  predicate Decided(c: C.State, x: Calls) {
    c.cfg.skip ==> x.getInstance && (c.instance.Some? ==> x.getJob)
  }

  /** Nothing goes wrong after the overlap check. */
  predicate Untroubled(x: Calls) {
    x.putJob && x.restOfPush && x.setInstance && x.putCron && x.nxt.Some?
  }

  /** Which passes report an error once they hold the lock, ... */
  predicate Troubled(c: C.State, x: Calls) {
    if !Decided(c, x) then true
    else if Blocked(c) then x.nxt.None? || !x.putCron
    else c.cfg.template.Garbled? || (c.cfg.HasType() && !Untroubled(x))
  }

  /** ... and altogether. */
  predicate Reports(c: C.State, x: Calls) {
    c.cfg.entry.Unreadable? || (DueNow(c) && !x.lock) || (Won(c, x) && Troubled(c, x))
  }

  /** The rows without the bookkeeping of the instances. */
  function Rows(c: C.State): C.State {
    c.(phases := map[])
  }

  lemma PassIsRun(c: C.State, s: nat, x: Calls) returns (run: seq<C.Step>)
    requires C.PhaseOf(c, s).Idle? && Fresh(c, x)
    ensures C.Legal(c, run) && C.Exec(c, run) == Pass(c, s, x) && forall e | e in run :: !e.Revive?
  {
    var rest := CompleteIsRun(C.Apply(c, C.List(s)), s, x);
    run := [C.List(s)] + rest;
    assert run[1..] == rest;
  }

  /** From the lock on: the cron is fired unless the overlap policy, a failing call
      before it or a missing job type stops it, and it moves on if nothing fails. */
  lemma LockedFires(c: C.State, s: nat, x: Calls)
    requires C.PhaseOf(c, s).Locked? && C.PhaseOf(c, s).t == c.next && Ready(c, s, x)
    ensures var c' := Complete(c, s, x);
            && c'.calls == (if Decided(c, x) && !Blocked(c) && c.cfg.HasType() then c.calls + [c.next] else c.calls)
            && c'.next == (if !Decided(c, x) || x.nxt.None? || !x.putCron then c.next
                           else if Blocked(c) || (c.cfg.HasType() && Untroubled(x)) then x.nxt.value
                           else c.next)
            && (Decided(c, x) && !Blocked(c) && c.cfg.HasType() && Untroubled(x) ==> c'.instance == Some(x.job))
  {
    Onward(c, s, x);
    var c1 := Step(c, s, x);
    if c1.phases[s].Checking? {
      Onward(c1, s, x);
      c1 := Step(c1, s, x);
    }
    if c1.phases[s].Skipping? {
      Onward(c1, s, x);
    } else if c1.phases[s].Cleared? {
      ClearedFires(c1, s, x);
    }
  }

  lemma ClearedFires(c: C.State, s: nat, x: Calls)
    requires C.PhaseOf(c, s).Cleared? && C.PhaseOf(c, s).t == c.next && Ready(c, s, x)
    ensures var c' := Complete(c, s, x);
            && c'.calls == (if c.cfg.HasType() then c.calls + [c.next] else c.calls)
            && c'.next == (if c.cfg.HasType() && Untroubled(x) then x.nxt.value else c.next)
            && (c.cfg.HasType() && Untroubled(x) ==> c'.instance == Some(x.job))
  {
    Onward(c, s, x);
    var c1 := Step(c, s, x);
    if c1.phases[s].Pushing? {
      Onward(c1, s, x);
      var c2 := Step(c1, s, x);
      if c2.phases[s].Pushed? {
        Onward(c2, s, x);
        var c3 := Step(c2, s, x);
        if c3.phases[s].Recorded? { Onward(c3, s, x); }
      }
    }
  }

  /** A pass pushes a job exactly when the cron is due, the lock is free and taken,
      the overlap policy is decided in favour and the template names a type; an
      untroubled pass moves the cron on to the recomputed second, and a second pass at
      the same time then does nothing. */
  lemma PassFires(c: C.State, s: nat, x: Calls)
    requires C.PhaseOf(c, s).Idle? && Fresh(c, x)
    ensures Pass(c, s, x).calls ==
            if Won(c, x) && Decided(c, x) && !Blocked(c) && c.cfg.HasType() then c.calls + [c.next] else c.calls
    ensures Won(c, x) && !Troubled(c, x) && (Blocked(c) || c.cfg.HasType()) ==>
              Pass(c, s, x).next == x.nxt.value && !Won(Pass(c, s, x), x)
  {
    var c1 := C.Apply(c, C.List(s));
    Onward(c1, s, x);
    var c2 := Step(c1, s, x);
    Onward(c2, s, x);
    var c3 := Step(c2, s, x);
    if c3.phases[s].Locked? {
      LockedFires(c3, s, x);
      SameClock(c3, s, x);
    }
  }

  /** The pass leaves the cron on another second. */
  predicate MovesOn(c: C.State, x: Calls) {
    Decided(c, x) && x.nxt.Some? && x.putCron && (Blocked(c) || (c.cfg.HasType() && Untroubled(x)))
  }

  lemma OwnStep(c: C.State, s: nat, x: Calls, u: nat)
    requires Ready(c, s, x) && u != s && !C.PhaseOf(c, s).Idle?
    ensures C.PhaseOf(Step(c, s, x), u) == C.PhaseOf(c, u)
  {}

  lemma {:induction false} OwnPass(c: C.State, s: nat, x: Calls, u: nat)
    requires Ready(c, s, x) && u != s
    ensures C.PhaseOf(Complete(c, s, x), u) == C.PhaseOf(c, u)
    ensures C.PhaseOf(Complete(c, s, x), s).Idle?
    decreases Rank(C.PhaseOf(c, s))
  {
    if !C.PhaseOf(c, s).Idle? {
      Onward(c, s, x);
      OwnStep(c, s, x, u);
      OwnPass(Step(c, s, x), s, x, u);
    }
  }

  lemma {:induction false} SameLocks(c: C.State, s: nat, x: Calls)
    requires Ready(c, s, x) && C.PhaseOf(c, s).Holding()
    ensures Complete(c, s, x).locks == c.locks
    decreases Rank(C.PhaseOf(c, s))
  {
    var c' := Step(c, s, x);
    if !C.PhaseOf(c', s).Idle? { SameLocks(c', s, x); }
  }

  /** Which passes block their cron: exactly the ones that take the lock and do not move
      the cron on, be it because a call fails, the expression does not parse, or the
      template is no JSON or names no type. */
  lemma PassBlocks(c: C.State, s: nat, x: Calls)
    requires C.Chained(c) && c.next !in c.locks && C.PhaseOf(c, s).Idle? && Fresh(c, x)
    ensures C.Stuck(Pass(c, s, x)) <==> Won(c, x) && !MovesOn(c, x)
  {
    var c1 := C.Apply(c, C.List(s));
    Onward(c1, s, x);
    var c2 := Step(c1, s, x);
    Onward(c2, s, x);
    var c3 := Step(c2, s, x);
    var c' := Pass(c, s, x);
    assert c' == Complete(c3, s, x);
    if Won(c, x) {
      LockedFires(c3, s, x);
      SameLocks(c3, s, x);
      assert forall l | l in c.locks :: l <= c.next;
      forall u | u in c'.phases ensures !c'.phases[u].Holding() {
        OwnPass(c3, s, x, if u == s then s + 1 else u);
        assert u != s ==> C.PhaseOf(c, u) == C.PhaseOf(c3, u);
      }
    } else {
      assert c' == c3 && c'.next == c.next && c'.locks == c.locks;
    }
  }

  /** A pass reports no error exactly when the cron is skipped, is not due, is locked by
      another instance, has been moved on, or is to be fired and names no type. */
  lemma QuietPass(c: C.State, s: nat, x: Calls)
    requires C.PhaseOf(c, s).Idle? && Fresh(c, x)
    ensures !Reports(c, x) <==>
              || c.cfg.entry.Skipped?
              || (c.cfg.entry.Usable?
                  && (|| c.clock < c.next * 1000 || (x.lock && c.next in c.locks)
                      || Pass(c, s, x).next != c.next
                      || (x.lock && c.cfg.template.Untyped? && !Blocked(c)
                          && (c.cfg.skip ==> x.getInstance && (c.instance.Some? ==> x.getJob)))))
  {
    var c1 := C.Apply(c, C.List(s));
    Onward(c1, s, x);
    var c2 := Step(c1, s, x);
    Onward(c2, s, x);
    var c3 := Step(c2, s, x);
    if c3.phases[s].Locked? { LockedFires(c3, s, x); }
  }

  /** Without an error a pass still blocks a cron whose template names no type. */
  lemma UntypedBlocksSilently(c: C.State, s: nat, x: Calls)
    requires C.Chained(c) && c.next !in c.locks && C.PhaseOf(c, s).Idle? && Fresh(c, x)
    requires Won(c, x) && Decided(c, x) && !Blocked(c) && c.cfg.template.Untyped?
    ensures C.Stuck(Pass(c, s, x)) && !Reports(c, x)
  {
    PassBlocks(c, s, x);
  }

  /** A freshly registered cron that is due, pushes its job and then cannot record the
      instance is blocked after its first pass. */
  lemma StuckAtOnce(c: C.State, s: nat, x: Calls)
    requires C.Registered(c) && Fresh(c, x) && Won(c, x) && x.getInstance && c.cfg.HasType()
    requires x.putJob && x.restOfPush && !x.setInstance
    ensures C.Stuck(Pass(c, s, x)) && Pass(c, s, x).calls == [c.next]
    ensures C.Chained(Pass(c, s, x)) && C.PhaseOf(Pass(c, s, x), s).Idle?
    ensures Pass(c, s, x).next == c.next && Pass(c, s, x).clock == c.clock && Pass(c, s, x).cfg == c.cfg
    ensures Pass(c, s, x).instance == None
  {
    PassBlocks(c, s, x);
    PassFires(c, s, x);
    var run := PassIsRun(c, s, x);
    C.RunKeeps(c, run);
    OwnPass(C.Apply(c, C.List(s)), s, x, s + 1);
    SameClock(C.Apply(c, C.List(s)), s, x);
    NotRecorded(C.Apply(c, C.List(s)), s, x);
  }

  lemma {:induction false} NotRecorded(c: C.State, s: nat, x: Calls)
    requires Ready(c, s, x) && !x.setInstance && !C.PhaseOf(c, s).Recorded? && !C.PhaseOf(c, s).Skipping?
    requires c.instance.None? && !C.PhaseOf(c, s).Checking?
    ensures Complete(c, s, x).instance == None && Complete(c, s, x).next == c.next
    decreases Rank(C.PhaseOf(c, s))
  {
    if !C.PhaseOf(c, s).Idle? { NotRecorded(Step(c, s, x), s, x); }
  }

  function LockExpires(c: C.State): C.State {
    c.(locks := c.locks - {c.next})
  }

  /** The lock rows must not expire early: once the row of a second that was fired but
      not moved on is gone, the next pass that gets the lock pushes that second again,
      if and only if the overlap policy is decided in favour and the cron has a type. */
  lemma ExpiredLockPushesAgain(c: C.State, s: nat, x: Calls)
    requires c.next in c.calls && C.PhaseOf(c, s).Idle? && Fresh(c, x) && DueNow(c) && x.lock
    ensures Pass(LockExpires(c), s, x).calls == c.calls + [c.next] <==>
            Decided(c, x) && !Blocked(c) && c.cfg.HasType()
  {
    PassFires(LockExpires(c), s, x);
  }

  /** It does happen: from registration, with one failed SetCronInstance and the expiry of
      one lock row, the same second is pushed twice, even under `skip`. */
  lemma PushedTwice(c: C.State, s: nat, x: Calls, y: Calls)
    requires C.Registered(c) && Fresh(c, x) && Won(c, x) && x.getInstance && c.cfg.HasType()
    requires x.putJob && x.restOfPush && !x.setInstance
    requires Fresh(Pass(c, s, x), y) && y.lock && y.getInstance
    ensures C.PhaseOf(Pass(c, s, x), s).Idle?
    ensures Pass(LockExpires(Pass(c, s, x)), s, y).calls == [c.next, c.next]
  {
    StuckAtOnce(c, s, x);
    ExpiredLockPushesAgain(Pass(c, s, x), s, y);
  }

  lemma {:induction false} SameClock(c: C.State, s: nat, x: Calls)
    requires Ready(c, s, x)
    ensures Complete(c, s, x).clock == c.clock && Complete(c, s, x).cfg == c.cfg
    decreases Rank(C.PhaseOf(c, s))
  {
    if !C.PhaseOf(c, s).Idle? { SameClock(Step(c, s, x), s, x); }
  }

  class Cron {
    const cfg: C.Config
    var next: int
    var locks: set<int>
    var instance: Option<JobId>
    var live: set<JobId>
    var fired: set<JobId>
    var back: set<JobId>
    var calls: seq<int>

    ghost function State(now: int): C.State
      reads this
    {
      C.State(cfg, next, locks, instance, live, fired, back, calls, map[], now)
    }

    constructor (config: C.Config, first: int)
      ensures cfg == config && next == first && forall now :: C.Registered(State(now))
    {
      cfg, next := config, first;
      locks, instance, live, fired, back, calls := {}, None, {}, {}, {}, [];
    }

    /** One iteration of the loop in FireCronJobs; `t` is the next run that was listed. */
    method Fire(t: int, now: int, x: Calls, ghost s: nat) returns (failed: bool)
      requires Fresh(State(now), x) && t == next
      modifies this
      ensures State(now) == Rows(Pass(old(State(now)), s, x))
      ensures failed <==> Reports(old(State(now)), x)
    {
      ghost var c1 := C.Apply(State(now), C.List(s));
      ghost var c2 := Step(c1, s, x);
      ghost var c3 := Step(c2, s, x);
      assert c2 == C.Apply(c1, C.ReadClock(s)) && c3 == C.Apply(c2, C.AcquireLock(s, x.lock));
      assert Complete(c1, s, x) == Complete(c3, s, x);
      if cfg.entry.Skipped? { return false; }
      if cfg.entry.Unreadable? { return true; }
      if now < t * 1000 { return false; }
      if !x.lock { return true; }
      if t in locks { return false; }
      locks := locks + {t};
      failed := FireLocked(t, now, x, s, c3);
    }

    /** The rest of the iteration, once the lock is taken: the overlap policy. */
    method FireLocked(t: int, now: int, x: Calls, ghost s: nat, ghost c: C.State) returns (failed: bool)
      requires C.PhaseOf(c, s) == C.Locked(t, now) && Rows(c) == State(now) && Ready(c, s, x)
      modifies this
      ensures State(now) == Rows(Complete(c, s, x))
      ensures failed <==> Troubled(c, x)
    {
      ghost var c1 := Step(c, s, x);
      assert c1 == C.Apply(c, C.GetInstance(s, x.getInstance)) && Complete(c, s, x) == Complete(c1, s, x);
      if cfg.skip {
        if !x.getInstance { return true; }
        if instance.Some? {
          ghost var c2 := Step(c1, s, x);
          assert c2 == C.Apply(c1, C.GetJob(s, x.getJob));
          Onward(c1, s, x);
          c1 := c2;
          if !x.getJob { return true; }
          if instance.value in live {
            Onward(c1, s, x);
            c1 := Step(c1, s, x);
            assert c1 == C.Apply(c2, C.PutSkipped(s, x.putCron, x.nxt));
            if x.nxt.None? || !x.putCron { return true; }
            next := x.nxt.value;
            return false;
          }
        }
      }
      failed := FirePush(t, now, x, s, c1);
    }

    /** The rest of the iteration, once the overlap policy lets the cron fire. */
    method FirePush(t: int, now: int, x: Calls, ghost s: nat, ghost c: C.State) returns (failed: bool)
      requires C.PhaseOf(c, s) == C.Cleared(t, now) && Rows(c) == State(now) && Ready(c, s, x)
      modifies this
      ensures State(now) == Rows(Complete(c, s, x))
      ensures failed <==> cfg.template.Garbled? || (cfg.HasType() && !Untroubled(x))
    {
      ghost var c1 := Step(c, s, x);
      assert c1 == C.Apply(c, C.PutJob(s, x.putJob, x.job));
      if cfg.template.Garbled? { return true; }
      if cfg.template.Untyped? { return false; }
      calls := calls + [t];
      if !x.putJob { return true; }
      live, fired := live + {x.job}, fired + {x.job};
      ghost var c2 := Step(c1, s, x);
      Onward(c, s, x);
      Onward(c1, s, x);
      assert c2 == C.Apply(c1, C.FinishPush(s, x.restOfPush));
      if !x.restOfPush { return true; }
      failed := RecordFiring(t, now, x, s, c2);
    }

    /** The rest of the iteration, once the job is pushed. */
    method RecordFiring(t: int, now: int, x: Calls, ghost s: nat, ghost c: C.State) returns (failed: bool)
      requires C.PhaseOf(c, s) == C.Pushed(t, now, x.job) && Rows(c) == State(now) && Ready(c, s, x)
      modifies this
      ensures State(now) == Rows(Complete(c, s, x))
      ensures failed <==> !(x.setInstance && x.putCron && x.nxt.Some?)
    {
      ghost var c1 := Step(c, s, x);
      Onward(c, s, x);
      assert c1 == C.Apply(c, C.SetInstance(s, x.setInstance));
      if !x.setInstance { return true; }
      instance := Some(x.job);
      ghost var c2 := Step(c1, s, x);
      Onward(c1, s, x);
      assert c2 == C.Apply(c1, C.PutCron(s, x.putCron, x.nxt));
      failed := x.nxt.None?;
      var nextRun := if x.nxt.Some? then x.nxt.value else t;
      if !x.putCron { return true; }
      next := nextRun;
    }
  }

  /** What FireCronJobs returns: nothing, the error of listing the crons, or the error
      of the pass over one of them. */
  datatype Report = NoError | ListFailed | PassFailed(k: nat)

  /** The first pass that reports an error, if any. */
  ghost predicate FirstError(before: seq<C.State>, xs: seq<Calls>, n: nat, err: Report)
    requires n <= |before| == |xs|
  {
    match err
    case NoError => forall i | 0 <= i < n :: !Reports(before[i], xs[i])
    case ListFailed => false
    case PassFailed(k) => k < n && Reports(before[k], xs[k]) && forall i | 0 <= i < k :: !Reports(before[i], xs[i])
  }

  lemma FirstErrorNext(before: seq<C.State>, xs: seq<Calls>, k: nat, err: Report)
    requires k < |before| == |xs| && FirstError(before, xs, k, err)
    ensures FirstError(before, xs, k + 1, if Reports(before[k], xs[k]) && err.NoError? then PassFailed(k) else err)
  {}

  /** `after` are the rows that one pass leaves. */
  ghost predicate Passed(before: C.State, after: C.State, s: nat, x: Calls) {
    C.PhaseOf(before, s).Idle? && Fresh(before, x) && after == Rows(Pass(before, s, x))
  }

  /** ListCrons: the next runs are read before any pass. */
  method ListNextRuns(crons: seq<Cron>) returns (listed: seq<int>)
    ensures |listed| == |crons| && forall i | 0 <= i < |crons| :: listed[i] == crons[i].next
  {
    listed := [];
    for k := 0 to |crons|
      invariant |listed| == k && forall i | 0 <= i < k :: listed[i] == crons[i].next
    {
      listed := listed + [crons[k].next];
    }
  }

  /** FireCronJobs: if the crons can be listed, every one gets its pass, whatever happens
      to the others, and the first error is reported. */
  method FireCronJobs(crons: seq<Cron>, list: bool, now: int, xs: seq<Calls>, ghost s: nat) returns (err: Report)
    requires |xs| == |crons| && forall i, j | 0 <= i < j < |crons| :: crons[i] != crons[j]
    requires forall i | 0 <= i < |crons| :: Fresh(crons[i].State(now), xs[i])
    modifies set i | 0 <= i < |crons| :: crons[i]
    ensures !list ==> err == ListFailed
    ensures !list ==> forall i | 0 <= i < |crons| :: crons[i].State(now) == old(crons[i].State(now))
    ensures list ==> forall i | 0 <= i < |crons| :: Passed(old(crons[i].State(now)), crons[i].State(now), s, xs[i])
    ensures list ==> FirstError(seq(|crons|, i requires 0 <= i < |crons| => old(crons[i].State(now))), xs, |xs|, err)
  {
    if !list { return ListFailed; }
    var listed := ListNextRuns(crons);
    err := NoError;
    ghost var before := seq(|crons|, i requires 0 <= i < |crons| => old(crons[i].State(now)));
    for k := 0 to |crons|
      invariant forall i | 0 <= i < k :: Passed(before[i], crons[i].State(now), s, xs[i])
      invariant forall i | k <= i < |crons| :: crons[i].State(now) == before[i]
      invariant FirstError(before, xs, k, err)
    {
      assert listed[k] == before[k].next;
      var failed := crons[k].Fire(listed[k], now, xs[k], s);
      assert Passed(before[k], crons[k].State(now), s, xs[k]);
      FirstErrorNext(before, xs, k, err);
      if failed && err.NoError? {
        err := PassFailed(k);
      }
    }
  }
}
