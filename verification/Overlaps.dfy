/** The `skip` policy and jobs that come back from a terminal state. */
module Overlaps {
  import opened Domain
  import C = Crons
  import F = Firing

  /** The cron after a pass that meets no trouble and pushes `x.job`. */
  predicate FiredClean(c: C.State, c': C.State, s: nat, x: F.Calls) {
    && c'.live == c.live + {x.job} && c'.fired == c.fired + {x.job} && c'.back == c.back
    && c'.instance == Some(x.job) && x.nxt.Some? && c'.next == x.nxt.value
    && c'.cfg == c.cfg && c'.clock == c.clock && C.PhaseOf(c', s).Idle?
  }

  lemma ClearedClean(c: C.State, s: nat, x: F.Calls)
    requires C.PhaseOf(c, s).Cleared? && F.Ready(c, s, x) && c.cfg.HasType() && F.Untroubled(x)
    ensures FiredClean(c, F.Complete(c, s, x), s, x) && F.Complete(c, s, x).locks == c.locks
  {
    F.Onward(c, s, x);
    var c1 := F.Step(c, s, x);
    F.Onward(c1, s, x);
    var c2 := F.Step(c1, s, x);
    F.Onward(c2, s, x);
    var c3 := F.Step(c2, s, x);
    F.Onward(c3, s, x);
  }

  lemma LockedClean(c: C.State, s: nat, x: F.Calls)
    requires C.PhaseOf(c, s).Locked? && F.Ready(c, s, x) && c.cfg.HasType() && F.Untroubled(x)
    requires F.Decided(c, x) && !F.Blocked(c)
    ensures FiredClean(c, F.Complete(c, s, x), s, x) && F.Complete(c, s, x).locks == c.locks
  {
    F.Onward(c, s, x);
    var c1 := F.Step(c, s, x);
    if c1.phases[s].Checking? {
      F.Onward(c1, s, x);
      c1 := F.Step(c1, s, x);
    }
    ClearedClean(c1, s, x);
  }

  lemma PassClean(c: C.State, s: nat, x: F.Calls)
    requires C.PhaseOf(c, s).Idle? && F.Fresh(c, x) && F.Won(c, x) && F.Decided(c, x) && !F.Blocked(c)
    requires c.cfg.HasType() && F.Untroubled(x)
    ensures FiredClean(c, F.Pass(c, s, x), s, x) && F.Pass(c, s, x).locks == c.locks + {c.next}
  {
    var c1 := C.Apply(c, C.List(s));
    F.Onward(c1, s, x);
    var c2 := F.Step(c1, s, x);
    F.Onward(c2, s, x);
    var c3 := F.Step(c2, s, x);
    LockedClean(c3, s, x);
  }

  // ---------- runs ----------

  /** Only jobs in `js` come back. */
  ghost predicate Revives(run: seq<C.Step>, js: set<JobId>) {
    forall e | e in run :: e.Revive? ==> e.job in js
  }

  /** A legal run from `c` to `c'` in which only jobs in `js` come back. */
  ghost predicate Leads(c: C.State, run: seq<C.Step>, c': C.State, js: set<JobId>) {
    C.Legal(c, run) && C.Exec(c, run) == c' && Revives(run, js)
  }

  lemma {:induction false} Chain(c: C.State, a: seq<C.Step>, c1: C.State, b: seq<C.Step>, c2: C.State, js: set<JobId>)
    requires Leads(c, a, c1, js) && Leads(c1, b, c2, js)
    ensures Leads(c, a + b, c2, js)
    decreases |a|
  {
    if a == [] {
      assert a + b == b;
    } else {
      assert (a + b)[0] == a[0] && (a + b)[1..] == a[1..] + b;
      assert Leads(C.Apply(c, a[0]), a[1..], c1, js);
      Chain(C.Apply(c, a[0]), a[1..], c1, b, c2, js);
    }
  }

  lemma OneStep(c: C.State, e: C.Step, js: set<JobId>)
    requires C.Enabled(c, e) && (e.Revive? ==> e.job in js)
    ensures Leads(c, [e], C.Apply(c, e), js)
  {
    assert [e][1..] == [];
  }

  lemma {:induction false} OnlyRevivedBack(c: C.State, run: seq<C.Step>, js: set<JobId>)
    requires C.Legal(c, run) && Revives(run, js)
    ensures C.Exec(c, run).back <= c.back + js
    decreases |run|
  {
    if run != [] {
      assert run[0] in run && forall e | e in run[1..] :: e in run;
      OnlyRevivedBack(C.Apply(c, run[0]), run[1..], js);
    }
  }

  // ---------- an overlap ----------

  /** The calls of an untroubled pass that pushes `job` and moves on to second `nxt`. */
  function Clean(job: JobId, nxt: int): F.Calls {
    F.Calls(true, true, true, true, true, true, true, job, Some(nxt))
  }

  /** Time passes until the second that is next. */
  function Wait(c: C.State): nat {
    if c.next * 1000 > c.clock then c.next * 1000 - c.clock else 0
  }

  /** The second after the current time. */
  function Soon(clock: int): int {
    (if clock >= 0 then clock / 1000 else 0) + 1
  }

  /** The cron waits for its second and fires `job`. */
  lemma FireNext(c: C.State, job: JobId, js: set<JobId>) returns (run: seq<C.Step>, c': C.State)
    requires C.PhaseOf(c, 0).Idle? && job !in c.fired && c.next !in c.locks
    requires c.cfg.entry.Usable? && c.cfg.HasType() && !F.Blocked(c) && forall l | l in c.locks :: l < c.next
    ensures Leads(c, run, c', js)
    ensures c'.live == c.live + {job} && c'.fired == c.fired + {job} && c'.instance == Some(job)
    ensures c'.cfg == c.cfg && C.PhaseOf(c', 0).Idle? && forall l | l in c'.locks :: l < c'.next
  {
    var ms := Wait(c);
    var c1 := C.Apply(c, C.Tick(ms));
    var x := Clean(job, Soon(c1.clock));
    OneStep(c, C.Tick(ms), js);
    PassClean(c1, 0, x);
    c' := F.Pass(c1, 0, x);
    var rest := F.PassIsRun(c1, 0, x);
    Chain(c, [C.Tick(ms)], c1, rest, c', js);
    run := [C.Tick(ms)] + rest;
    assert c.next < c'.next;
  }

  /** A job is fired and ends, the next second fires another, and the first one comes back:
      two jobs of a cron with `skip` are live. */
  lemma RevivedOverlaps(c: C.State, j: JobId, k: JobId, js: set<JobId>) returns (run: seq<C.Step>)
    requires C.Registered(c) && c.cfg.entry.Usable? && c.cfg.HasType() && j != k && j in js
    ensures C.Legal(c, run) && Revives(run, js) && !C.AtMostOne(C.Exec(c, run).live)
  {
    var run1, c1 := FireNext(c, j, js);
    var c2 := C.Apply(c1, C.Terminate(j));
    OneStep(c1, C.Terminate(j), js);
    Chain(c, run1, c1, [C.Terminate(j)], c2, js);
    var run2, c3 := FireNext(c2, k, js);
    Chain(c, run1 + [C.Terminate(j)], c2, run2, c3, js);
    var c4 := C.Apply(c3, C.Revive(j));
    OneStep(c3, C.Revive(j), js);
    run := run1 + [C.Terminate(j)] + run2 + [C.Revive(j)];
    Chain(c, run1 + [C.Terminate(j)] + run2, c3, [C.Revive(j)], c4, js);
    assert j in c4.live && k in c4.live;
  }

  /** With `skip`, at most one fired job is live in every run in which only jobs in `js`
      come back from a terminal state, if and only if there are none in `js`. */
  lemma SkipHoldsIff(c: C.State, js: set<JobId>, a: JobId, b: JobId)
    requires C.Registered(c) && c.cfg.skip && c.cfg.entry.Usable? && c.cfg.HasType() && a != b
    ensures (forall run | C.Legal(c, run) && Revives(run, js) :: C.AtMostOne(C.Exec(c, run).live)) <==> js == {}
  {
    if js == {} {
      forall run | C.Legal(c, run) && Revives(run, js) ensures C.AtMostOne(C.Exec(c, run).live) {
        C.AtMostOnePush(c, run);
        OnlyRevivedBack(c, run, js);
        assert C.New(C.Exec(c, run)) == C.Exec(c, run).live;
      }
    } else {
      var j :| j in js;
      var run := RevivedOverlaps(c, j, if j == a then b else a, js);
    }
  }
}
