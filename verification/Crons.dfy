/** Cron firing by any number of schedulers. */
module Crons {
  import opened Domain

  // A step is one store call of one instance, in any interleaving; calls may fail and
  // instances may stop. The rows of one cron are modelled: other crons use other rows.

  /** Where an instance is in its pass over the cron. `t` is the next run (in
      seconds) it read from the record, `now` the time (in milliseconds) of its pass. */
  datatype Phase =
    | Idle
    | Listed(t: int)
    | Timed(t: int, now: int)
    | Locked(t: int, now: int)
    | Checking(t: int, now: int, inst: JobId)
    | Skipping(t: int, now: int)
    | Cleared(t: int, now: int)
    | Pushing(t: int, now: int, job: JobId)
    | Pushed(t: int, now: int, job: JobId)
    | Recorded(t: int, now: int)
  {
    /** Past the lock. */
    predicate Holding() {
      !Idle? && !Listed? && !Timed?
    }
  }

  /** Part of the record that firing never changes. */
  datatype Config = Config(skip: bool, entry: Entry, template: Template)
  {
    predicate HasType() {
      template.Typed?
    }
  }

  /** Whether the pass looks at the cron: it skips disabled crons and blank next runs,
      and reports next runs it cannot parse. */
  datatype Entry = Usable | Skipped | Unreadable

  datatype Template = Typed | Untyped | Garbled

  /** `next` is the stored next run, `locks` the lock rows, `live` the fired jobs
      that are not terminal, `back` those that were terminal and came back (see
      `Lifecycle.CancelledComesBack` and `Endings.AckedAgain`); `calls` lists the
      scheduled second of every Push. */
  datatype State = State(
    cfg: Config,
    next: int,
    locks: set<int>,
    instance: Option<JobId>,
    live: set<JobId>,
    fired: set<JobId>,
    back: set<JobId>,
    calls: seq<int>,
    phases: map<nat, Phase>,
    clock: int)

  function PhaseOf(c: State, s: nat): Phase {
    if s in c.phases then c.phases[s] else Idle
  }

  function At(c: State, s: nat, p: Phase): State {
    c.(phases := c.phases[s := p])
  }

  /** A freshly registered cron. */
  predicate Registered(c: State) {
    c.locks == {} && c.instance == None && c.live == {} && c.fired == {} && c.back == {}
    && c.calls == [] && c.phases == map[]
  }

  datatype Step =
    | List(s: nat)
    | ReadClock(s: nat)
    | AcquireLock(s: nat, ok: bool)
    | GetInstance(s: nat, ok: bool)
    | GetJob(s: nat, ok: bool)
    | PutSkipped(s: nat, ok: bool, nxt: Option<int>)
    | PutJob(s: nat, ok: bool, job: JobId)
    | FinishPush(s: nat, ok: bool)
    | SetInstance(s: nat, ok: bool)
    | PutCron(s: nat, ok: bool, nxt: Option<int>)
    | Stop(s: nat)
    | Terminate(job: JobId)
    | Revive(job: JobId)
    | Tick(ms: nat)

  /** A recomputed schedule is later than the pass; no schedule if the expression does not parse. */
  predicate Later(nxt: Option<int>, now: int) {
    nxt.Some? ==> nxt.value * 1000 > now
  }

  predicate Enabled(c: State, e: Step) {
    match e
    case List(s) => PhaseOf(c, s).Idle?
    case ReadClock(s) => PhaseOf(c, s).Listed?
    case AcquireLock(s, _) => PhaseOf(c, s).Timed?
    case GetInstance(s, _) => PhaseOf(c, s).Locked?
    case GetJob(s, _) => PhaseOf(c, s).Checking?
    case PutSkipped(s, _, nxt) => PhaseOf(c, s).Skipping? && Later(nxt, PhaseOf(c, s).now)
    case PutJob(s, _, job) => PhaseOf(c, s).Cleared? && job !in c.fired
    case FinishPush(s, _) => PhaseOf(c, s).Pushing?
    case SetInstance(s, _) => PhaseOf(c, s).Pushed?
    case PutCron(s, _, nxt) => PhaseOf(c, s).Recorded? && Later(nxt, PhaseOf(c, s).now)
    case Stop(s) => true
    case Terminate(job) => true
    case Revive(job) => job in c.fired && job !in c.live
    case Tick(_) => true
  }

  function Apply(c: State, e: Step): State
    requires Enabled(c, e)
  {
    match e
    case List(s) => At(c, s, Listed(c.next))
    case ReadClock(s) => At(c, s, Timed(PhaseOf(c, s).t, c.clock))
    case AcquireLock(s, ok) =>
      var p := PhaseOf(c, s);
      if !c.cfg.entry.Usable? || p.now < p.t * 1000 || !ok || p.t in c.locks then At(c, s, Idle)
      else At(c, s, Locked(p.t, p.now)).(locks := c.locks + {p.t})
    case GetInstance(s, ok) =>
      var p := PhaseOf(c, s);
      if !c.cfg.skip then At(c, s, Cleared(p.t, p.now))
      else if !ok then At(c, s, Idle)
      else if c.instance.None? then At(c, s, Cleared(p.t, p.now))
      else At(c, s, Checking(p.t, p.now, c.instance.value))
    case GetJob(s, ok) =>
      var p := PhaseOf(c, s);
      if !ok then At(c, s, Idle)
      else if p.inst in c.live then At(c, s, Skipping(p.t, p.now))
      else At(c, s, Cleared(p.t, p.now))
    case PutSkipped(s, ok, nxt) =>
      if ok && nxt.Some? then At(c, s, Idle).(next := nxt.value) else At(c, s, Idle)
    case PutJob(s, ok, job) =>
      var p := PhaseOf(c, s);
      if !c.cfg.HasType() then At(c, s, Idle)
      else if !ok then At(c, s, Idle).(calls := c.calls + [p.t])
      else At(c, s, Pushing(p.t, p.now, job))
           .(calls := c.calls + [p.t], live := c.live + {job}, fired := c.fired + {job})
    case FinishPush(s, ok) =>
      var p := PhaseOf(c, s);
      At(c, s, if ok then Pushed(p.t, p.now, p.job) else Idle)
    case SetInstance(s, ok) =>
      var p := PhaseOf(c, s);
      if ok then At(c, s, Recorded(p.t, p.now)).(instance := Some(p.job)) else At(c, s, Idle)
    case PutCron(s, ok, nxt) =>
      var p := PhaseOf(c, s);
      if ok then At(c, s, Idle).(next := if nxt.Some? then nxt.value else p.t) else At(c, s, Idle)
    case Stop(s) => At(c, s, Idle)
    case Terminate(job) => c.(live := c.live - {job})
    case Revive(job) => c.(live := c.live + {job}, back := c.back + {job})
    case Tick(ms) => c.(clock := c.clock + ms)
  }

  predicate Legal(c: State, run: seq<Step>)
    decreases |run|
  {
    run == [] || (Enabled(c, run[0]) && Legal(Apply(c, run[0]), run[1..]))
  }

  function Exec(c: State, run: seq<Step>): State
    requires Legal(c, run)
    decreases |run|
  {
    if run == [] then c else Exec(Apply(c, run[0]), run[1..])
  }

  // ---------- the lock chain ----------

  /** A snapshot is current or its second is locked; the holder of a lock works on
      the current second and is alone. */
  ghost predicate Chained(c: State) {
    Current(c) && Alone(c)
  }

  ghost predicate Current(c: State) {
    && (forall l | l in c.locks :: l <= c.next)
    && (forall s | s in c.phases && !c.phases[s].Idle? ::
          c.phases[s].t <= c.next && (c.phases[s].t < c.next ==> c.phases[s].t in c.locks))
  }

  ghost predicate Alone(c: State) {
    && (forall s | s in c.phases && c.phases[s].Holding() ::
          c.phases[s].t == c.next && c.next in c.locks && c.phases[s].t * 1000 <= c.phases[s].now)
    && (forall s, s' | s in c.phases && s' in c.phases && c.phases[s].Holding() && c.phases[s'].Holding() :: s == s')
  }

  /** A step of one instance that stays on its second and its side of the lock. */
  lemma PhaseKeepsChained(c: State, c': State, s: nat, p: Phase)
    requires Chained(c) && c'.next == c.next && c'.locks == c.locks && c'.phases == c.phases[s := p]
    requires || p.Idle? || p == Listed(c.next)
             || (!PhaseOf(c, s).Idle? && p.t == PhaseOf(c, s).t
                 && (p.Holding() ==> PhaseOf(c, s).Holding() && p.now == PhaseOf(c, s).now))
    ensures Chained(c')
  {}

  lemma RestKeepsChained(c: State, e: Step)
    requires Chained(c) && Enabled(c, e) && !e.AcquireLock? && !e.PutSkipped? && !e.PutCron?
    ensures Chained(Apply(c, e)) && Apply(c, e).next == c.next
  {
    if !e.Terminate? && !e.Revive? && !e.Tick? {
      PhaseKeepsChained(c, Apply(c, e), e.s, PhaseOf(Apply(c, e), e.s));
    }
  }

  lemma KeepsChained(c: State, e: Step)
    requires Chained(c) && Enabled(c, e)
    ensures Chained(Apply(c, e)) && c.next <= Apply(c, e).next
  {
    if !e.AcquireLock? && !e.PutSkipped? && !e.PutCron? { RestKeepsChained(c, e); }
  }

  /** Every Push holds the lock of its second, and its instance has not pushed before. */
  ghost predicate PushedOnce(c: State) {
    && (forall i, j | 0 <= i < j < |c.calls| :: c.calls[i] != c.calls[j])
    && (forall t | t in c.calls :: t in c.locks)
    && (forall s | s in c.phases && (c.phases[s].Locked? || c.phases[s].Checking? || c.phases[s].Cleared?) ::
          c.phases[s].t !in c.calls)
  }

  lemma OthersPushNothing(c: State, e: Step)
    requires Chained(c) && PushedOnce(c) && Enabled(c, e) && !e.PutJob?
    ensures PushedOnce(Apply(c, e))
  {
    assert Apply(c, e).calls == c.calls && c.locks <= Apply(c, e).locks;
  }

  lemma KeepsPushedOnce(c: State, e: Step)
    requires Chained(c) && PushedOnce(c) && Enabled(c, e)
    ensures PushedOnce(Apply(c, e))
  {
    if !e.PutJob? { OthersPushNothing(c, e); }
  }

  // ---------- the overlap policy ----------

  predicate Within(live: set<JobId>, one: Option<JobId>) {
    forall j | j in live :: one == Some(j)
  }

  /** The live jobs that never came back from a terminal state. */
  function New(c: State): set<JobId> {
    c.live - c.back
  }

  /** With `skip`: what may be live, by the phase of the lock holder. */
  ghost predicate PhaseOk(c: State, p: Phase) {
    match p
    case Locked(_, _) => Within(New(c), c.instance)
    case Checking(_, _, inst) => Within(New(c), c.instance) && c.instance == Some(inst)
    case Skipping(_, _) => Within(New(c), c.instance)
    case Cleared(_, _) => New(c) == {}
    case Pushing(_, _, job) => Within(New(c), Some(job))
    case Pushed(_, _, job) => Within(New(c), Some(job))
    case Recorded(_, _) => Within(New(c), c.instance)
    case _ => true
  }

  ghost predicate AllPhasesOk(c: State) {
    forall s | s in c.phases :: PhaseOk(c, c.phases[s])
  }

  /** All jobs of the set are one. */
  ghost predicate AtMostOne(js: set<JobId>) {
    forall j, j' | j in js && j' in js :: j == j'
  }

  ghost predicate NoOverlap(c: State) {
    && c.back <= c.fired && AtMostOne(New(c))
    && (c.next !in c.locks ==> Within(New(c), c.instance))
    && AllPhasesOk(c)
  }

  /** Steps of the jobs and of time: fewer new jobs, the same instance, lock and phases. */
  lemma JobsKeepNoOverlap(c: State, e: Step)
    requires NoOverlap(c) && Enabled(c, e) && (e.Terminate? || e.Revive? || e.Tick?)
    ensures NoOverlap(Apply(c, e))
  {
    var c' := Apply(c, e);
    assert New(c') <= New(c);
    forall s | s in c'.phases ensures PhaseOk(c', c'.phases[s]) { assert PhaseOk(c, c.phases[s]); }
  }

  /** Steps of an instance that change neither the jobs nor the recorded instance. */
  lemma QuietKeepsNoOverlap(c: State, e: Step)
    requires c.cfg.skip && Chained(c) && NoOverlap(c) && Enabled(c, e)
    requires !e.Terminate? && !e.Revive? && !e.Tick? && !e.PutJob? && !e.SetInstance?
    ensures NoOverlap(Apply(c, e))
  {
    var c' := Apply(c, e);
    assert PhaseOk(c, PhaseOf(c, e.s));
    assert New(c') == New(c) && c'.instance == c.instance;
    forall s | s in c'.phases ensures PhaseOk(c', c'.phases[s]) {
      if s != e.s { assert PhaseOk(c, c.phases[s]); }
    }
  }

  /** The two steps that do; only the lock holder takes them. */
  lemma PushKeepsNoOverlap(c: State, e: Step)
    requires c.cfg.skip && Chained(c) && NoOverlap(c) && Enabled(c, e) && (e.PutJob? || e.SetInstance?)
    ensures NoOverlap(Apply(c, e))
  {
    var c' := Apply(c, e);
    assert c.phases[e.s].Holding() && PhaseOk(c, c.phases[e.s]);
    assert New(c') <= New(c) + if e.PutJob? then {e.job} else {};
    forall s | s in c'.phases ensures PhaseOk(c', c'.phases[s]) {
      if s != e.s { assert !c.phases[s].Holding(); }
    }
  }

  lemma KeepsNoOverlap(c: State, e: Step)
    requires c.cfg.skip && Chained(c) && NoOverlap(c) && Enabled(c, e)
    ensures NoOverlap(Apply(c, e))
  {
    if e.Terminate? || e.Revive? || e.Tick? {
      JobsKeepNoOverlap(c, e);
    } else if e.PutJob? || e.SetInstance? {
      PushKeepsNoOverlap(c, e);
    } else {
      QuietKeepsNoOverlap(c, e);
    }
  }

  // ---------- runs ----------

  lemma {:induction false} RunKeeps(c: State, run: seq<Step>)
    requires Chained(c) && PushedOnce(c) && (c.cfg.skip ==> NoOverlap(c)) && Legal(c, run)
    ensures var c' := Exec(c, run);
            Chained(c') && PushedOnce(c') && c.next <= c'.next && c'.cfg == c.cfg && (c.cfg.skip ==> NoOverlap(c'))
    decreases |run|
  {
    if run != [] {
      KeepsChained(c, run[0]);
      KeepsPushedOnce(c, run[0]);
      if c.cfg.skip { KeepsNoOverlap(c, run[0]); }
      RunKeeps(Apply(c, run[0]), run[1..]);
    }
  }

  /** Over all interleavings and failing calls: a scheduled second causes at most one
      Push, and with `skip` at most one of the jobs that are not terminal has never been
      terminal, so that an overlap takes a job that came back. */
  lemma AtMostOnePush(c: State, run: seq<Step>)
    requires Registered(c) && Legal(c, run)
    ensures forall i, j | 0 <= i < j < |Exec(c, run).calls| :: Exec(c, run).calls[i] != Exec(c, run).calls[j]
    ensures c.cfg.skip ==> AtMostOne(New(Exec(c, run)))
  {
    RunKeeps(c, run);
  }

  /** The next run never moves back: it is set only by the holder of the lock on
      the old value, and only to a later second. */
  lemma NextRunMonotone(c: State, run: seq<Step>, e: Step)
    requires Registered(c) && Legal(c, run) && Enabled(Exec(c, run), e)
    ensures var b := Exec(c, run); var a := Apply(b, e);
            a.next != b.next ==>
              && a.next > b.next && b.next in b.locks && (e.PutSkipped? || e.PutCron?)
              && PhaseOf(b, e.s).Holding() && PhaseOf(b, e.s).t == b.next && a.next * 1000 > PhaseOf(b, e.s).now
  {
    RunKeeps(c, run);
    KeepsChained(Exec(c, run), e);
  }

  /** The second is locked and nobody works on it. */
  ghost predicate Stuck(c: State) {
    c.next in c.locks && forall s | s in c.phases :: !c.phases[s].Holding()
  }

  /** If the lock holder gives up on an error, the cron does not fire again as long
      as the lock row exists. */
  lemma {:induction false} StuckForGood(c: State, run: seq<Step>)
    requires Chained(c) && Stuck(c) && Legal(c, run)
    ensures Stuck(Exec(c, run)) && Exec(c, run).next == c.next && Exec(c, run).calls == c.calls
    decreases |run|
  {
    if run != [] {
      KeepsChained(c, run[0]);
      StuckForGood(Apply(c, run[0]), run[1..]);
    }
  }
}
