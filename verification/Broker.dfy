/** The in-memory event broker: publishers under the read lock, subscriptions under
    the write lock, channels of 64 events closed through a sync.Once. Any number of
    goroutines interleave; sending on a closed channel or closing one twice panics. */
module Broker {

  type JobEvent(==, !new)

  const CAPACITY := 64

  /** An event offered to a subscriber by one publish call, the number of buffered
      events at that moment, and whether it was taken. */
  datatype Offer = Offer(publisher: nat, event: JobEvent, buffered: nat, taken: bool)

  /** A subscription: its channel, its sync.Once, and what was offered and received. */
  datatype Subscription = Subscription(
    filter: JobEvent -> bool,
    buffer: seq<JobEvent>,
    closed: bool,
    once: bool,
    offers: seq<Offer>,
    received: seq<JobEvent>)

  datatype Phase =
    | Publishing(event: JobEvent, snapshot: set<nat>, rest: set<nat>)
    | Published(event: JobEvent, snapshot: set<nat>)
    | Unsubscribing(sub: nat)  // removed from the set, channel still to be closed
    | Stopping                 // Close, waiting for the write lock
    | Closing(rest: set<nat>)  // Close, holding the write lock
    | Ended
  {
    predicate InClose() {
      Stopping? || Closing?
    }
  }

  datatype State = State(
    all: map<nat, Subscription>,
    subs: set<nat>,
    readers: set<nat>,
    writer: bool,
    threads: map<nat, Phase>,
    closeCalls: nat,
    panicked: bool)

  const EMPTY := State(map[], {}, {}, false, map[], 0, false)

  datatype Step =
    | Subscribe(s: nat, filter: JobEvent -> bool)
    | PublishBegin(t: nat, event: JobEvent)
    | OfferTo(t: nat, s: nat)
    | PublishEnd(t: nat)
    | UnsubscribeBegin(t: nat, s: nat)
    | UnsubscribeEnd(t: nat)
    | CloseDone(t: nat)
    | CloseBegin(t: nat)
    | CloseOne(t: nat, s: nat)
    | CloseEnd(t: nat)
    | Receive(s: nat)

  predicate Free(b: State) {
    !b.writer && b.readers == {}
  }

  predicate Enabled(b: State, e: Step) {
    match e
    case Subscribe(s, _) => s !in b.all && Free(b)
    case PublishBegin(t, _) => t !in b.threads && !b.writer
    case OfferTo(t, s) => t in b.threads && b.threads[t].Publishing? && s in b.threads[t].rest && s in b.all
    case PublishEnd(t) => t in b.threads && b.threads[t].Publishing? && b.threads[t].rest == {}
    case UnsubscribeBegin(t, s) => t !in b.threads && s in b.all && Free(b)
    case UnsubscribeEnd(t) => t in b.threads && b.threads[t].Unsubscribing? && b.threads[t].sub in b.all
    case CloseDone(t) => t !in b.threads
    case CloseBegin(t) => t in b.threads && b.threads[t].Stopping? && Free(b)
    case CloseOne(t, s) => t in b.threads && b.threads[t].Closing? && s in b.threads[t].rest && s in b.all
    case CloseEnd(t) => t in b.threads && b.threads[t].Closing? && b.threads[t].rest == {}
    case Receive(s) => s in b.all && b.all[s].buffer != []
  }

  /** The non-blocking send of a publisher to one subscriber. */
  function Offered(sub: Subscription, t: nat, event: JobEvent): Subscription {
    if !sub.filter(event) then sub
    else
      var taken := |sub.buffer| < CAPACITY;
      sub.(buffer := if taken then sub.buffer + [event] else sub.buffer,
           offers := sub.offers + [Offer(t, event, |sub.buffer|, taken)])
  }

  /** closeOnce.Do(close) on one subscription. */
  function CloseChannel(b: State, s: nat): State
    requires s in b.all
  {
    var sub := b.all[s];
    if sub.once then b
    else b.(all := b.all[s := sub.(once := true, closed := true)], panicked := b.panicked || sub.closed)
  }

  function Apply(b: State, e: Step): State
    requires Enabled(b, e)
  {
    match e
    case Subscribe(s, filter) =>
      b.(all := b.all[s := Subscription(filter, [], false, false, [], [])], subs := b.subs + {s})
    case PublishBegin(t, event) =>
      b.(readers := b.readers + {t}, threads := b.threads[t := Publishing(event, b.subs, b.subs)])
    case OfferTo(t, s) =>
      var p := b.threads[t];
      b.(all := b.all[s := Offered(b.all[s], t, p.event)],
         threads := b.threads[t := p.(rest := p.rest - {s})],
         panicked := b.panicked || (b.all[s].filter(p.event) && b.all[s].closed))
    case PublishEnd(t) =>
      b.(readers := b.readers - {t}, threads := b.threads[t := Published(b.threads[t].event, b.threads[t].snapshot)])
    case UnsubscribeBegin(t, s) => b.(subs := b.subs - {s}, threads := b.threads[t := Unsubscribing(s)])
    case UnsubscribeEnd(t) => CloseChannel(b, b.threads[t].sub).(threads := b.threads[t := Ended])
    case CloseDone(t) =>
      // Close first closes its done channel, which panics the second time
      b.(closeCalls := b.closeCalls + 1, panicked := b.panicked || b.closeCalls > 0,
         threads := b.threads[t := if b.closeCalls > 0 then Ended else Stopping])
    case CloseBegin(t) => b.(writer := true, threads := b.threads[t := Closing(b.subs)])
    case CloseOne(t, s) =>
      CloseChannel(b, s).(threads := b.threads[t := Closing(b.threads[t].rest - {s})])
    case CloseEnd(t) => b.(subs := {}, writer := false, threads := b.threads[t := Ended])
    case Receive(s) =>
      var sub := b.all[s];
      b.(all := b.all[s := sub.(buffer := sub.buffer[1..], received := sub.received + [sub.buffer[0]])])
  }

  predicate Legal(b: State, run: seq<Step>)
    decreases |run|
  {
    run == [] || (Enabled(b, run[0]) && Legal(Apply(b, run[0]), run[1..]))
  }

  function Exec(b: State, run: seq<Step>): State
    requires Legal(b, run)
    decreases |run|
  {
    if run == [] then b else Exec(Apply(b, run[0]), run[1..])
  }

  // ---------- no panic ----------

  /** What the lock guarantees a goroutine in each phase. */
  ghost predicate PhaseOk(b: State, t: nat, p: Phase) {
    match p
    case Publishing(_, snapshot, rest) => t in b.readers && rest <= b.subs && rest <= snapshot
    case Published(_, _) => true
    case Unsubscribing(s) => s in b.all && s !in b.subs
    case Stopping => !b.writer && b.closeCalls > 0
    case Closing(rest) => b.writer && rest <= b.subs && b.closeCalls > 0
    case Ended => true
  }

  /** Outside Close every subscription in the set is open; closing goes through the Once. */
  ghost predicate SubOk(b: State, s: nat, sub: Subscription) {
    && (s in b.subs && sub.closed ==> b.writer)
    && (sub.closed <==> sub.once)
  }

  ghost predicate Sound(b: State) {
    && (b.panicked <==> b.closeCalls > 1)
    && (b.writer ==> b.readers == {} && b.closeCalls > 0)
    && (forall s | s in b.subs :: s in b.all)
    && (forall s | s in b.all :: SubOk(b, s, b.all[s]))
    && (forall t | t in b.threads :: PhaseOk(b, t, b.threads[t]))
    && (forall t, u | t in b.threads && u in b.threads && b.threads[t].InClose() && b.threads[u].InClose() :: t == u)
  }

  lemma OfferKeepsSound(b: State, t: nat, s: nat)
    requires Sound(b) && Enabled(b, OfferTo(t, s))
    ensures Sound(Apply(b, OfferTo(t, s)))
  {
    assert PhaseOk(b, t, b.threads[t]) && SubOk(b, s, b.all[s]);
    var b' := Apply(b, OfferTo(t, s));
    forall u | u in b'.threads ensures PhaseOk(b', u, b'.threads[u]) {
      assert u in b.threads && PhaseOk(b, u, b.threads[u]);
    }
    forall r | r in b'.all ensures SubOk(b', r, b'.all[r]) { assert SubOk(b, r, b.all[r]); }
  }

  lemma CloseKeepsSound(b: State, e: Step)
    requires Sound(b) && Enabled(b, e) && (e.UnsubscribeEnd? || e.CloseOne?)
    ensures Sound(Apply(b, e))
  {
    assert PhaseOk(b, e.t, b.threads[e.t]);
    var b' := Apply(b, e);
    forall u | u in b'.threads ensures PhaseOk(b', u, b'.threads[u]) {
      assert u in b.threads && PhaseOk(b, u, b.threads[u]);
    }
    forall r | r in b'.all ensures SubOk(b', r, b'.all[r]) { assert SubOk(b, r, b.all[r]); }
  }

  /** Steps that take or release no lock for writing. */
  lemma ReadKeepsSound(b: State, e: Step)
    requires Sound(b) && Enabled(b, e) && (e.PublishBegin? || e.PublishEnd? || e.CloseDone? || e.Receive?)
    ensures Sound(Apply(b, e))
  {
    var b' := Apply(b, e);
    forall u | u in b'.threads ensures PhaseOk(b', u, b'.threads[u]) {
      if u in b.threads { assert PhaseOk(b, u, b.threads[u]); }
    }
    forall r | r in b'.all ensures SubOk(b', r, b'.all[r]) { assert SubOk(b, r, b.all[r]); }
  }

  lemma LockKeepsSound(b: State, e: Step)
    requires Sound(b) && Enabled(b, e) && (e.Subscribe? || e.UnsubscribeBegin? || e.CloseBegin? || e.CloseEnd?)
    ensures Sound(Apply(b, e))
  {
    var b' := Apply(b, e);
    forall u | u in b'.threads ensures PhaseOk(b', u, b'.threads[u]) {
      if u in b.threads { assert PhaseOk(b, u, b.threads[u]); }
    }
    forall r | r in b'.all ensures SubOk(b', r, b'.all[r]) {
      if r in b.all { assert SubOk(b, r, b.all[r]); }
    }
  }

  lemma KeepsSound(b: State, e: Step)
    requires Sound(b) && Enabled(b, e)
    ensures Sound(Apply(b, e))
  {
    if e.OfferTo? {
      OfferKeepsSound(b, e.t, e.s);
    } else if e.UnsubscribeEnd? || e.CloseOne? {
      CloseKeepsSound(b, e);
    } else if e.Subscribe? || e.UnsubscribeBegin? || e.CloseBegin? || e.CloseEnd? {
      LockKeepsSound(b, e);
    } else {
      ReadKeepsSound(b, e);
    }
  }

  lemma {:induction false} RunSound(b: State, run: seq<Step>)
    requires Sound(b) && Legal(b, run)
    ensures Sound(Exec(b, run))
    decreases |run|
  {
    if run != [] {
      KeepsSound(b, run[0]);
      RunSound(Apply(b, run[0]), run[1..]);
    }
  }

  /** For every interleaving of publishers, subscribers and repeated unsubscribes, the
      broker never sends on a closed channel and closes none twice: it panics exactly
      when Close is called a second time, and then because of its own done channel. */
  lemma PanicsOnlyOnSecondClose(run: seq<Step>)
    requires Legal(EMPTY, run)
    ensures var b := Exec(EMPTY, run);
            && (b.panicked <==> b.closeCalls > 1)
            && (forall t, s | Enabled(b, OfferTo(t, s)) :: !b.all[s].closed)
            && (forall s | s in b.all :: b.all[s].closed <==> b.all[s].once)
  {
    RunSound(EMPTY, run);
    var b := Exec(EMPTY, run);
    forall t, s | Enabled(b, OfferTo(t, s)) ensures !b.all[s].closed {
      assert PhaseOk(b, t, b.threads[t]) && SubOk(b, s, b.all[s]);
    }
    forall s | s in b.all ensures b.all[s].closed <==> b.all[s].once { assert SubOk(b, s, b.all[s]); }
  }

  // ---------- closing ----------

  ghost predicate Leaving(b: State, s: nat) {
    exists t :: t in b.threads && b.threads[t] == Unsubscribing(s)
  }

  /** A subscription outside the set is closed, or its goroutine is about to close it; and
      Close has closed what it has gone over. */
  ghost predicate Swept(b: State) {
    && (forall s | s in b.all && s !in b.subs && !b.all[s].closed :: Leaving(b, s))
    && (forall t | t in b.threads && b.threads[t].Closing? ::
          forall s | s in b.subs && s !in b.threads[t].rest :: s in b.all && b.all[s].closed)
  }

  lemma StillLeaving(b: State, e: Step, s: nat)
    requires Enabled(b, e) && Leaving(b, s) && !(e.UnsubscribeEnd? && b.threads[e.t].sub == s)
    ensures Leaving(Apply(b, e), s)
  {
    var t :| t in b.threads && b.threads[t] == Unsubscribing(s);
    assert Apply(b, e).threads[t] == Unsubscribing(s);
  }

  lemma KeepsSwept(b: State, e: Step)
    requires Sound(b) && Swept(b) && Enabled(b, e)
    ensures Swept(Apply(b, e))
  {
    var b' := Apply(b, e);
    forall s | s in b'.all && s !in b'.subs && !b'.all[s].closed ensures Leaving(b', s) { KeepsLeaving(b, e, s); }
    forall t | t in b'.threads && b'.threads[t].Closing?
      ensures forall s | s in b'.subs && s !in b'.threads[t].rest :: s in b'.all && b'.all[s].closed
    {
      KeepsClosing(b, e, t);
    }
  }

  lemma KeepsLeaving(b: State, e: Step, s: nat)
    requires Sound(b) && Swept(b) && Enabled(b, e)
    requires var b' := Apply(b, e); s in b'.all && s !in b'.subs && !b'.all[s].closed
    ensures Leaving(Apply(b, e), s)
  {
    assert s in b.all && !b.all[s].closed && SubOk(b, s, b.all[s]);
    if e.UnsubscribeBegin? && e.s == s {
      assert Apply(b, e).threads[e.t] == Unsubscribing(s);
    } else if s !in b.subs {
      StillLeaving(b, e, s);
    }
  }

  lemma KeepsClosing(b: State, e: Step, t: nat)
    requires Sound(b) && Swept(b) && Enabled(b, e)
    requires t in Apply(b, e).threads && Apply(b, e).threads[t].Closing?
    ensures var b' := Apply(b, e);
            forall s | s in b'.subs && s !in b'.threads[t].rest :: s in b'.all && b'.all[s].closed
  {
    var b' := Apply(b, e);
    if t in b.threads && b.threads[t].Closing? { assert PhaseOk(b, t, b.threads[t]); }
    forall s | s in b'.subs && s !in b'.threads[t].rest ensures s in b'.all && b'.all[s].closed {
      if s in b.all { assert SubOk(b, s, b.all[s]); }
    }
  }

  lemma {:induction false} RunSwept(b: State, run: seq<Step>)
    requires Sound(b) && Swept(b) && Legal(b, run)
    ensures Sound(Exec(b, run)) && Swept(Exec(b, run))
    decreases |run|
  {
    if run != [] {
      KeepsSound(b, run[0]);
      KeepsSwept(b, run[0]);
      RunSwept(Apply(b, run[0]), run[1..]);
    }
  }

  /** Unsubscribing and Close close every channel: while Close does not hold the lock, the
      channel of a subscription that nobody is just unsubscribing is open if and only if
      the subscription is in the set. */
  lemma ClosedIffGone(run: seq<Step>, s: nat)
    requires Legal(EMPTY, run) && s in Exec(EMPTY, run).all
    ensures var b := Exec(EMPTY, run);
            !b.writer && !Leaving(b, s) ==> (b.all[s].closed <==> s !in b.subs)
  {
    RunSwept(EMPTY, run);
    assert SubOk(Exec(EMPTY, run), s, Exec(EMPTY, run).all[s]);
  }

  // ---------- delivery ----------

  function Taken(offers: seq<Offer>): seq<JobEvent> {
    if offers == [] then []
    else Taken(offers[..|offers| - 1]) + (if offers[|offers| - 1].taken then [offers[|offers| - 1].event] else [])
  }

  /** Received and buffered events are the taken offers in order; every offer matches
      the filter and is refused only by a full buffer; no publish call offers twice. */
  ghost predicate Faithful(sub: Subscription) {
    && sub.received + sub.buffer == Taken(sub.offers)
    && (forall i | 0 <= i < |sub.offers| ::
          sub.filter(sub.offers[i].event) && (sub.offers[i].taken <==> sub.offers[i].buffered < CAPACITY))
    && (forall i, j | 0 <= i < j < |sub.offers| :: sub.offers[i].publisher != sub.offers[j].publisher)
  }

  ghost predicate OfferedBy(sub: Subscription, t: nat) {
    exists i :: 0 <= i < |sub.offers| && sub.offers[i].publisher == t
  }

  /** Which subscribers a publish call has reached. */
  ghost predicate Reached(b: State, t: nat, p: Phase) {
    match p
    case Publishing(event, snapshot, rest) =>
      (forall s | s in rest :: s in b.all && !OfferedBy(b.all[s], t)) && Covers(b, t, event, snapshot - rest)
    case Published(event, snapshot) => Covers(b, t, event, snapshot)
    case _ => true
  }

  /** The subscribers in `done` were offered the event if and only if they want it. */
  ghost predicate Covers(b: State, t: nat, event: JobEvent, done: set<nat>) {
    forall s | s in done :: s in b.all && (OfferedBy(b.all[s], t) <==> b.all[s].filter(event))
  }

  /** Offers come from publish calls that have started. */
  ghost predicate Known(sub: Subscription, threads: set<nat>) {
    forall i | 0 <= i < |sub.offers| :: sub.offers[i].publisher in threads
  }

  ghost predicate Delivering(b: State) {
    && (forall s | s in b.subs :: s in b.all)
    && (forall s | s in b.all :: Faithful(b.all[s]))
    && (forall s | s in b.all :: Known(b.all[s], b.threads.Keys))
    && (forall t | t in b.threads :: Reached(b, t, b.threads[t]))
  }

  lemma OfferIsFaithful(sub: Subscription, t: nat, event: JobEvent)
    requires Faithful(sub) && !OfferedBy(sub, t)
    ensures Faithful(Offered(sub, t, event))
    ensures OfferedBy(Offered(sub, t, event), t) <==> sub.filter(event)
    ensures forall u | u != t :: OfferedBy(Offered(sub, t, event), u) <==> OfferedBy(sub, u)
  {
    var sub' := Offered(sub, t, event);
    if sub.filter(event) {
      var n := |sub.offers|;
      assert sub'.offers[..n] == sub.offers && sub'.offers[n].publisher == t;
      forall u | u != t ensures OfferedBy(sub', u) <==> OfferedBy(sub, u) {
        if OfferedBy(sub, u) {
          var i :| 0 <= i < |sub.offers| && sub.offers[i].publisher == u;
          assert sub'.offers[i].publisher == u;
        }
      }
    }
  }

  lemma ReceiveIsFaithful(sub: Subscription)
    requires Faithful(sub) && sub.buffer != []
    ensures Faithful(sub.(buffer := sub.buffer[1..], received := sub.received + [sub.buffer[0]]))
  {
    assert sub.received + [sub.buffer[0]] + sub.buffer[1..] == sub.received + sub.buffer;
  }

  /** The publish call `t` cannot tell `b` from `b'`. */
  ghost predicate Alike(b: State, b': State, t: nat) {
    forall s | s in b.all ::
      s in b'.all && b'.all[s].filter == b.all[s].filter && (OfferedBy(b'.all[s], t) <==> OfferedBy(b.all[s], t))
  }

  lemma ReachedAlike(b: State, b': State, t: nat, p: Phase)
    requires Reached(b, t, p) && Alike(b, b', t)
    ensures Reached(b', t, p)
  {}

  lemma OfferReaches(b: State, t: nat, s: nat)
    requires Delivering(b) && Enabled(b, OfferTo(t, s))
    ensures var b' := Apply(b, OfferTo(t, s)); Reached(b', t, b'.threads[t])
  {
    var p := b.threads[t];
    assert Reached(b, t, p) && Faithful(b.all[s]);
    OfferIsFaithful(b.all[s], t, p.event);
  }

  lemma OfferReachesOthers(b: State, t: nat, s: nat, u: nat)
    requires Delivering(b) && Enabled(b, OfferTo(t, s)) && u in b.threads && u != t
    ensures Reached(Apply(b, OfferTo(t, s)), u, b.threads[u])
  {
    var b' := Apply(b, OfferTo(t, s));
    assert Reached(b, t, b.threads[t]);
    OfferIsFaithful(b.all[s], t, b.threads[t].event);
    assert Alike(b, b', u);
    ReachedAlike(b, b', u, b.threads[u]);
  }

  lemma OfferKeepsFaithful(b: State, t: nat, s: nat)
    requires Delivering(b) && Enabled(b, OfferTo(t, s))
    ensures var b' := Apply(b, OfferTo(t, s));
            forall r | r in b'.all :: Faithful(b'.all[r]) && Known(b'.all[r], b'.threads.Keys)
  {
    var b' := Apply(b, OfferTo(t, s));
    assert Reached(b, t, b.threads[t]) && Known(b.all[s], b.threads.Keys);
    OfferIsFaithful(b.all[s], t, b.threads[t].event);
    assert b'.threads.Keys == b.threads.Keys;
    assert b'.all[s] == Offered(b.all[s], t, b.threads[t].event);
  }

  lemma OfferDelivers(b: State, t: nat, s: nat)
    requires Delivering(b) && Enabled(b, OfferTo(t, s))
    ensures Delivering(Apply(b, OfferTo(t, s)))
  {
    var b' := Apply(b, OfferTo(t, s));
    OfferKeepsFaithful(b, t, s);
    forall u | u in b'.threads ensures Reached(b', u, b'.threads[u]) {
      if u == t { OfferReaches(b, t, s); } else { OfferReachesOthers(b, t, s, u); }
    }
  }

  /** The subscription has the filter, the offers and the events of the other one. */
  ghost predicate SameEvents(sub: Subscription, sub': Subscription) {
    && sub'.filter == sub.filter && sub'.offers == sub.offers
    && sub'.buffer == sub.buffer && sub'.received == sub.received
  }

  lemma SameFaithful(sub: Subscription, sub': Subscription)
    requires SameEvents(sub, sub') && Faithful(sub)
    ensures Faithful(sub')
  {}

  /** Steps that send nothing keep filters and offers. */
  lemma QuietStep(b: State, e: Step, r: nat)
    requires Enabled(b, e) && !e.OfferTo?
    ensures var b' := Apply(b, e);
            && b.threads.Keys <= b'.threads.Keys
            && (r in b.all ==>
                  && r in b'.all
                  && b'.all[r].filter == b.all[r].filter && b'.all[r].offers == b.all[r].offers
                  && (!(e.Receive? && e.s == r) ==> SameEvents(b.all[r], b'.all[r])))
            && (r in b'.all && r !in b.all ==>
                  b'.all[r].offers == [] && b'.all[r].buffer == [] && b'.all[r].received == [])
  {}

  lemma QuietFaithful(b: State, e: Step, r: nat)
    requires Enabled(b, e) && !e.OfferTo? && r in Apply(b, e).all && (r in b.all ==> Faithful(b.all[r]))
    ensures Faithful(Apply(b, e).all[r])
  {
    if e.Receive? && e.s == r {
      ReceiveIsFaithful(b.all[r]);
    } else {
      QuietStep(b, e, r);
      if r in b.all { SameFaithful(b.all[r], Apply(b, e).all[r]); }
    }
  }

  lemma OtherDelivers(b: State, e: Step)
    requires Delivering(b) && Enabled(b, e) && !e.OfferTo?
    ensures Delivering(Apply(b, e))
  {
    var b' := Apply(b, e);
    forall r | r in b'.all ensures Faithful(b'.all[r]) && Known(b'.all[r], b'.threads.Keys) {
      QuietFaithful(b, e, r);
      QuietStep(b, e, r);
      if r in b.all { assert Known(b.all[r], b.threads.Keys); }
    }
    forall u | u in b'.threads ensures Reached(b', u, b'.threads[u]) { OtherReaches(b, e, u); }
  }

  lemma OtherReaches(b: State, e: Step, u: nat)
    requires Delivering(b) && Enabled(b, e) && !e.OfferTo? && u in Apply(b, e).threads
    ensures Reached(Apply(b, e), u, Apply(b, e).threads[u])
  {
    var b' := Apply(b, e);
    if u in b.threads {
      forall r | r in b.all
        ensures r in b'.all && b'.all[r].filter == b.all[r].filter && b'.all[r].offers == b.all[r].offers
      {
        QuietStep(b, e, r);
      }
      assert Alike(b, b', u);
      ReachedAlike(b, b', u, b.threads[u]);
    } else if e.PublishBegin? {
      forall r | r in b.subs ensures !OfferedBy(b.all[r], u) { assert Known(b.all[r], b.threads.Keys); }
    }
  }

  lemma {:induction false} RunDelivers(b: State, run: seq<Step>)
    requires Delivering(b) && Legal(b, run)
    ensures Delivering(Exec(b, run))
    decreases |run|
  {
    if run != [] {
      var e := run[0];
      if e.OfferTo? { OfferDelivers(b, e.t, e.s); } else { OtherDelivers(b, e); }
      RunDelivers(Apply(b, e), run[1..]);
    }
  }

  /** What a subscriber has received, followed by what is buffered for it, are the
      matching events it was offered, in order and without the ones that met a full
      buffer; and a finished publish call has offered its event exactly to the
      subscribers present at its start that want it. */
  lemma EventsDelivered(run: seq<Step>, s: nat, t: nat)
    requires Legal(EMPTY, run) && s in Exec(EMPTY, run).all
    ensures Faithful(Exec(EMPTY, run).all[s])
    ensures var b := Exec(EMPTY, run);
            t in b.threads && b.threads[t].Published? && s in b.threads[t].snapshot ==>
              (OfferedBy(b.all[s], t) <==> b.all[s].filter(b.threads[t].event))
  {
    RunDelivers(EMPTY, run);
    var b := Exec(EMPTY, run);
    if t in b.threads { assert Reached(b, t, b.threads[t]); }
  }
}
