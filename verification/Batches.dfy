/** PushBatch, as a run of single pushes. */
module Batches {
  import opened Domain
  import opened Protocol
  import D = Delivery

  // PushBatch stores all jobs first and sends them afterwards, in the order in which
  // sendBatchToSQS happens to group them. Its effect is that of single pushes in that
  // order, of which the ones SQS did not take fail at their send.

  /** A job of a batch. PushBatch looks neither at a scheduled time nor at a unique policy. */
  datatype Item = Item(id: JobId, sub: Submission)

  function AtOnce(sub: Submission): Submission {
    sub.(scheduledAt := None)
  }

  function Put(w: World, it: Item): World {
    w.(jobs := w.jobs[it.id := NewJob(it.sub, Available)], completed := Registered(w.completed, it.sub.queue))
  }

  function Send(w: World, it: Item): World {
    w.(msgs := w.msgs + {NextMessage(w, it.id, it.sub.queue, it.sub.expiresAt)}, nextMsg := w.nextMsg + 1)
  }

  function PutAll(w: World, items: seq<Item>): World
    decreases |items|
  {
    if items == [] then w else PutAll(Put(w, items[0]), items[1..])
  }

  function SendAll(w: World, items: seq<Item>): World
    decreases |items|
  {
    if items == [] then w else SendAll(Send(w, items[0]), items[1..])
  }

  const NO_FAULT: Faults := (s: Site) => false
  const REGISTER_FAILS: Faults := (s: Site) => s == OnRegisterQueue
  const SEND_FAILS: Faults := (s: Site) => s == OnSendMessage

  function PushEvent(it: Item, f: Faults): Event {
    Event(PushOp(it.id, AtOnce(it.sub)), f)
  }

  function PushEvents(items: seq<Item>, f: Faults): (run: seq<Event>)
    ensures |run| == |items|
  {
    seq(|items|, i requires 0 <= i < |items| => PushEvent(items[i], f))
  }

  ghost predicate DistinctIds(items: seq<Item>) {
    forall i, j | 0 <= i < j < |items| :: items[i].id != items[j].id
  }

  ghost predicate Fresh(w: World, items: seq<Item>) {
    DistinctIds(items) && forall i | 0 <= i < |items| :: items[i].id !in w.jobs
  }

  // ---------- storing ----------

  lemma PutSwap(w: World, a: Item, b: Item)
    requires a.id != b.id
    ensures Put(Put(w, a), b) == Put(Put(w, b), a)
  {
    assert w.jobs[a.id := NewJob(a.sub, Available)][b.id := NewJob(b.sub, Available)] ==
           w.jobs[b.id := NewJob(b.sub, Available)][a.id := NewJob(a.sub, Available)];
    assert Registered(Registered(w.completed, a.sub.queue), b.sub.queue) ==
           Registered(Registered(w.completed, b.sub.queue), a.sub.queue);
  }

  function Drop(items: seq<Item>, k: nat): seq<Item>
    requires k < |items|
  {
    items[..k] + items[k + 1..]
  }

  lemma {:induction false} PullFront(w: World, items: seq<Item>, k: nat)
    requires k < |items| && DistinctIds(items)
    ensures PutAll(w, items) == PutAll(Put(w, items[k]), Drop(items, k))
    decreases k
  {
    if k == 0 {
      assert Drop(items, 0) == items[1..];
    } else {
      PullFront(Put(w, items[0]), items[1..], k - 1);
      PutSwap(w, items[0], items[k]);
      assert Drop(items, k)[0] == items[0] && Drop(items, k)[1..] == Drop(items[1..], k - 1);
    }
  }

  lemma DropOne(items: seq<Item>, k: nat)
    requires k < |items|
    ensures multiset(Drop(items, k)) == multiset(items) - multiset{items[k]}
  {
    assert items == items[..k] + [items[k]] + items[k + 1..];
  }

  lemma DropKeepsDistinct(items: seq<Item>, k: nat)
    requires k < |items| && DistinctIds(items)
    ensures DistinctIds(Drop(items, k))
  {
    var rest := Drop(items, k);
    forall i, j | 0 <= i < j < |rest| ensures rest[i].id != rest[j].id {
      assert rest[i] == items[if i < k then i else i + 1] && rest[j] == items[if j < k then j else j + 1];
    }
  }

  /** The order in which jobs are stored does not matter. */
  lemma {:induction false} PutAllPermuted(w: World, a: seq<Item>, b: seq<Item>)
    requires DistinctIds(a) && multiset(a) == multiset(b)
    ensures PutAll(w, a) == PutAll(w, b)
    decreases |b|
  {
    if b == [] {
      assert |multiset(a)| == |multiset(b)|;
    } else {
      assert b[0] in multiset(a);
      var k :| 0 <= k < |a| && a[k] == b[0];
      PullFront(w, a, k);
      DropOne(a, k);
      DropKeepsDistinct(a, k);
      assert b == [b[0]] + b[1..];
      PutAllPermuted(Put(w, b[0]), Drop(a, k), b[1..]);
    }
  }

  lemma {:induction false} PutAllSnoc(w: World, items: seq<Item>, x: Item)
    ensures PutAll(w, items + [x]) == Put(PutAll(w, items), x)
    decreases |items|
  {
    if items == [] {
      assert [x][1..] == [] && [] + [x] == [x];
    } else {
      assert (items + [x])[0] == items[0] && (items + [x])[1..] == items[1..] + [x];
      PutAllSnoc(Put(w, items[0]), items[1..], x);
    }
  }

  lemma {:induction false} SendAllSnoc(w: World, items: seq<Item>, x: Item)
    ensures SendAll(w, items + [x]) == Send(SendAll(w, items), x)
    decreases |items|
  {
    if items == [] {
      assert [x][1..] == [] && [] + [x] == [x];
    } else {
      assert (items + [x])[0] == items[0] && (items + [x])[1..] == items[1..] + [x];
      SendAllSnoc(Send(w, items[0]), items[1..], x);
    }
  }

  // ---------- sending ----------

  lemma {:induction false} SendFirst(w: World, items: seq<Item>, x: Item)
    ensures PutAll(Send(w, x), items) == Send(PutAll(w, items), x)
    decreases |items|
  {
    if items != [] {
      assert Put(Send(w, x), items[0]) == Send(Put(w, items[0]), x);
      SendFirst(Put(w, items[0]), items[1..], x);
    }
  }

  lemma PushIsPutAndSend(w: World, it: Item)
    ensures Apply(w, PushEvent(it, NO_FAULT)) == Send(Put(w, it), it)
  {
    assert Apply(w, PushEvent(it, NO_FAULT)) == Push(w, it.id, AtOnce(it.sub), NO_FAULT).world;
    assert NewJob(AtOnce(it.sub), Available) == NewJob(it.sub, Available);
  }

  lemma FailedPushIsPut(w: World, it: Item)
    ensures Apply(w, PushEvent(it, SEND_FAILS)) == Put(w, it)
  {
    assert Apply(w, PushEvent(it, SEND_FAILS)) == Push(w, it.id, AtOnce(it.sub), SEND_FAILS).world;
    assert NewJob(AtOnce(it.sub), Available) == NewJob(it.sub, Available);
  }

  /** The record is stored, the queue is not registered. */
  function PutOnly(w: World, it: Item): World {
    w.(jobs := w.jobs[it.id := NewJob(it.sub, Available)])
  }

  lemma UnregisteredPushIsPutOnly(w: World, it: Item)
    ensures Apply(w, PushEvent(it, REGISTER_FAILS)) == PutOnly(w, it)
  {
    assert Apply(w, PushEvent(it, REGISTER_FAILS)) == Push(w, it.id, AtOnce(it.sub), REGISTER_FAILS).world;
    assert NewJob(AtOnce(it.sub), Available) == NewJob(it.sub, Available);
  }

  lemma Tail(items: seq<Item>, f: Faults)
    requires items != []
    ensures PushEvents(items, f)[0] == PushEvent(items[0], f) && PushEvents(items, f)[1..] == PushEvents(items[1..], f)
  {}

  /** Stores and then sends, or pushes one by one. */
  lemma {:induction false} SentArePushed(w: World, sent: seq<Item>, unsent: seq<Item>)
    ensures SendAll(PutAll(w, sent + unsent), sent) == PutAll(Exec(w, PushEvents(sent, NO_FAULT)), unsent)
    decreases |sent|
  {
    if sent == [] {
      assert sent + unsent == unsent;
    } else {
      var x, rest := sent[0], sent[1..];
      assert (sent + unsent)[0] == x && (sent + unsent)[1..] == rest + unsent;
      Tail(sent, NO_FAULT);
      PushIsPutAndSend(w, x);
      SendFirst(Put(w, x), rest + unsent, x);
      SentArePushed(Send(Put(w, x), x), rest, unsent);
    }
  }

  lemma {:induction false} UnsentArePut(w: World, unsent: seq<Item>)
    ensures Exec(w, PushEvents(unsent, SEND_FAILS)) == PutAll(w, unsent)
    decreases |unsent|
  {
    if unsent != [] {
      Tail(unsent, SEND_FAILS);
      FailedPushIsPut(w, unsent[0]);
      UnsentArePut(Put(w, unsent[0]), unsent[1..]);
    }
  }

  lemma {:induction false} FreshIsLegal(w: World, items: seq<Item>, f: Faults)
    requires Fresh(w, items)
    ensures Legal(w, PushEvents(items, f))
    ensures Exec(w, PushEvents(items, f)).jobs.Keys <= w.jobs.Keys + (set i | 0 <= i < |items| :: items[i].id)
    decreases |items|
  {
    if items != [] {
      Tail(items, f);
      var w' := Apply(w, PushEvent(items[0], f));
      assert w'.jobs.Keys <= w.jobs.Keys + {items[0].id};
      FreshIsLegal(w', items[1..], f);
    }
  }

  ghost predicate OnlyPushes(run: seq<Event>) {
    forall e | e in run :: e.op.PushOp?
  }

  /** A legal run of pushes that leads from `w` to `w'`. */
  ghost predicate PushRun(w: World, run: seq<Event>, w': World) {
    Legal(w, run) && Exec(w, run) == w' && OnlyPushes(run)
  }

  /** Jobs that were stored and not sent are pushes whose sends fail. */
  lemma StoredPrefix(w: World, items: seq<Item>, k: nat)
    requires Fresh(w, items) && k <= |items|
    ensures PushRun(w, PushEvents(items[..k], SEND_FAILS), PutAll(w, items[..k]))
  {
    FreshIsLegal(w, items[..k], SEND_FAILS);
    UnsentArePut(w, items[..k]);
  }

  lemma OneMorePush(w: World, run: seq<Event>, w1: World, it: Item)
    requires PushRun(w, run, w1) && it.id !in w1.jobs
    ensures PushRun(w, run + [PushEvent(it, REGISTER_FAILS)], PutOnly(w1, it))
  {
    Extend(w, run, PushEvent(it, REGISTER_FAILS));
    UnregisteredPushIsPutOnly(w1, it);
  }

  lemma StillFresh(w: World, items: seq<Item>, k: nat)
    requires Fresh(w, items) && k < |items|
    ensures items[k].id !in PutAll(w, items[..k]).jobs
  {
    UnsentArePut(w, items[..k]);
    FreshIsLegal(w, items[..k], SEND_FAILS);
  }

  /** The events a batch amounts to. */
  function BatchRun(sent: seq<Item>, unsent: seq<Item>): seq<Event> {
    PushEvents(sent, NO_FAULT) + PushEvents(unsent, SEND_FAILS)
  }

  lemma SplitFresh(w: World, items: seq<Item>, sent: seq<Item>, unsent: seq<Item>)
    requires Fresh(w, items) && multiset(sent + unsent) == multiset(items)
    ensures Fresh(w, sent + unsent)
  {
    var all := sent + unsent;
    forall i | 0 <= i < |all| ensures all[i].id !in w.jobs {
      assert all[i] in multiset(items);
    }
    forall i, j | 0 <= i < j < |all| ensures all[i].id != all[j].id {
      StillDistinct(items, all, i, j);
    }
  }

  lemma SameItem(items: seq<Item>, x: Item, y: Item)
    requires DistinctIds(items) && x in multiset(items) && y in multiset(items) && x.id == y.id
    ensures x == y
  {
    var a :| 0 <= a < |items| && items[a] == x;
    var b :| 0 <= b < |items| && items[b] == y;
  }

  lemma OnlyOnce(items: seq<Item>, x: Item)
    requires DistinctIds(items) && x in multiset(items)
    ensures multiset(items)[x] == 1
  {
    var a :| 0 <= a < |items| && items[a] == x;
    assert items == items[..a] + [x] + items[a + 1..];
    assert x !in items[..a] && x !in items[a + 1..];
  }

  lemma Twice(all: seq<Item>, i: nat, j: nat)
    requires i < j < |all| && all[i] == all[j]
    ensures multiset(all)[all[i]] >= 2
  {
    assert all == all[..j] + all[j..] && all[i] == all[..j][i] && all[i] == all[j..][0];
    assert all[i] in multiset(all[..j]) && all[i] in multiset(all[j..]);
  }

  lemma StillDistinct(items: seq<Item>, all: seq<Item>, i: nat, j: nat)
    requires DistinctIds(items) && multiset(all) == multiset(items) && i < j < |all|
    ensures all[i].id != all[j].id
  {
    assert all[i] in multiset(items) && all[j] in multiset(items);
    OnlyOnce(items, all[i]);
    if all[i].id == all[j].id {
      SameItem(items, all[i], all[j]);
      Twice(all, i, j);
    }
  }

  /** Whatever SQS takes, and in whatever order, the batch is a legal run of pushes. */
  lemma BatchIsPushes(w: World, items: seq<Item>, sent: seq<Item>, unsent: seq<Item>)
    requires Fresh(w, items) && multiset(sent + unsent) == multiset(items)
    ensures Legal(w, BatchRun(sent, unsent))
    ensures SendAll(PutAll(w, items), sent) == Exec(w, BatchRun(sent, unsent))
  {
    SplitFresh(w, items, sent, unsent);
    PutAllPermuted(w, items, sent + unsent);
    SentArePushed(w, sent, unsent);
    var w1 := Exec(w, PushEvents(sent, NO_FAULT));
    UnsentArePut(w1, unsent);
    LegalParts(w, sent, unsent);
    ExecConcat(w, PushEvents(sent, NO_FAULT), PushEvents(unsent, SEND_FAILS));
  }

  lemma FreshParts(w: World, sent: seq<Item>, unsent: seq<Item>)
    requires Fresh(w, sent + unsent)
    ensures Fresh(w, sent) && Fresh(w, unsent)
    ensures forall i, j | 0 <= i < |sent| && 0 <= j < |unsent| :: sent[i].id != unsent[j].id
  {
    var all := sent + unsent;
    assert forall i | 0 <= i < |sent| :: all[i] == sent[i];
    assert forall i | 0 <= i < |unsent| :: all[|sent| + i] == unsent[i];
  }

  lemma LegalParts(w: World, sent: seq<Item>, unsent: seq<Item>)
    requires Fresh(w, sent + unsent)
    ensures Legal(w, PushEvents(sent, NO_FAULT))
    ensures Legal(Exec(w, PushEvents(sent, NO_FAULT)), PushEvents(unsent, SEND_FAILS))
  {
    FreshParts(w, sent, unsent);
    FreshIsLegal(w, sent, NO_FAULT);
    var w1 := Exec(w, PushEvents(sent, NO_FAULT));
    forall j | 0 <= j < |unsent| ensures unsent[j].id !in w1.jobs {
      assert unsent[j].id !in w.jobs;
    }
    FreshIsLegal(w1, unsent, SEND_FAILS);
  }

  // ---------- failing batches ----------

  /** The calls that store a job of a batch succeed. */
  predicate Stores(f: Faults) {
    !f(OnPutJob) && !f(OnRegisterQueue)
  }

  /** The first job that cannot be stored, if any. */
  function FirstFailure(items: seq<Item>, f: JobId -> Faults): (k: nat)
    ensures k <= |items| && (k < |items| ==> !Stores(f(items[k].id)))
    ensures forall i | 0 <= i < k :: Stores(f(items[i].id))
  {
    if items == [] || !Stores(f(items[0].id)) then 0 else 1 + FirstFailure(items[1..], f)
  }

  /** What is stored: everything before the first failure, and the record that failed to
      have its queue registered. */
  function StoredBatch(w: World, items: seq<Item>, f: JobId -> Faults): World {
    var k := FirstFailure(items, f);
    if k == |items| then PutAll(w, items)
    else if f(items[k].id)(OnPutJob) then PutAll(w, items[..k])
    else PutOnly(PutAll(w, items[..k]), items[k])
  }

  /** Storing sends nothing and keeps what was there. */
  lemma {:induction false} PutAllStores(w: World, items: seq<Item>)
    ensures var w' := PutAll(w, items);
            && w'.msgs == w.msgs && w.jobs.Keys <= w'.jobs.Keys
            && (forall i | 0 <= i < |items| :: items[i].id in w'.jobs)
    decreases |items|
  {
    if items != [] {
      PutAllStores(Put(w, items[0]), items[1..]);
      forall i | 0 <= i < |items| ensures items[i].id in PutAll(w, items).jobs {
        if i > 0 { assert items[i] == items[1..][i - 1]; }
      }
    }
  }

  lemma {:induction false} SendAllKeepsJobs(w: World, items: seq<Item>)
    ensures SendAll(w, items).jobs == w.jobs
    decreases |items|
  {
    if items != [] { SendAllKeepsJobs(Send(w, items[0]), items[1..]); }
  }

  /** A batch of new jobs leaves nothing behind exactly when its first PutJob fails; in
      any case a batch that fails while storing has no messages. */
  lemma NothingStored(w: World, items: seq<Item>, f: JobId -> Faults)
    requires Fresh(w, items) && items != []
    ensures StoredBatch(w, items, f).msgs == w.msgs
    ensures StoredBatch(w, items, f) == w <==> f(items[0].id)(OnPutJob)
  {
    var k := FirstFailure(items, f);
    PutAllStores(w, items);
    PutAllStores(w, items[..k]);
    assert items[0].id !in w.jobs;
    if f(items[0].id)(OnPutJob) {
      assert k == 0 && items[..k] == [];
    } else if k > 0 {
      assert items[..k][0] == items[0] && items[0].id in PutAll(w, items[..k]).jobs;
    }
  }

  /** The jobs before the first failure are left behind, stored and without a message. */
  lemma LeftBehind(w: World, items: seq<Item>, f: JobId -> Faults, i: nat)
    requires D.Safe(w) && Fresh(w, items) && i < FirstFailure(items, f) < |items|
    ensures items[i].id in StoredBatch(w, items, f).jobs && NoMessage(StoredBatch(w, items, f), items[i].id)
  {
    var k := FirstFailure(items, f);
    NothingStored(w, items, f);
    PutAllStores(w, items[..k]);
    assert items[..k][i] == items[i] && D.SafeJob(w, items[i].id);
  }

  lemma PutBack(items: seq<Item>, k: nat, rest: seq<Item>)
    requires k < |items| && multiset(rest) == multiset(Drop(items, k))
    ensures multiset([items[k]] + rest) == multiset(items)
  {
    DropOne(items, k);
  }

  lemma TakeOne(items: seq<Item>, sent: seq<Item>) returns (k: nat)
    requires sent != [] && multiset(sent) <= multiset(items)
    ensures k < |items| && items[k] == sent[0] && multiset(sent[1..]) <= multiset(Drop(items, k))
  {
    assert sent == [sent[0]] + sent[1..];
    assert sent[0] in multiset(items);
    k :| 0 <= k < |items| && items[k] == sent[0];
    DropOne(items, k);
  }

  /** The jobs that SQS did not take. */
  lemma {:induction false} Unsent(items: seq<Item>, sent: seq<Item>) returns (unsent: seq<Item>)
    requires multiset(sent) <= multiset(items)
    ensures multiset(sent + unsent) == multiset(items)
    decreases |sent|
  {
    if sent == [] {
      unsent := items;
      assert sent + unsent == items;
    } else {
      var k := TakeOne(items, sent);
      unsent := Unsent(Drop(items, k), sent[1..]);
      PutBack(items, k, sent[1..] + unsent);
      assert sent + unsent == [items[k]] + (sent[1..] + unsent);
    }
  }

  lemma StoredIsRun(w: World, items: seq<Item>, f: JobId -> Faults) returns (run: seq<Event>)
    requires Fresh(w, items) && FirstFailure(items, f) < |items|
    ensures PushRun(w, run, StoredBatch(w, items, f))
  {
    var k := FirstFailure(items, f);
    StoredPrefix(w, items, k);
    run := PushEvents(items[..k], SEND_FAILS);
    if !f(items[k].id)(OnPutJob) {
      StillFresh(w, items, k);
      OneMorePush(w, run, PutAll(w, items[..k]), items[k]);
      run := run + [PushEvent(items[k], REGISTER_FAILS)];
    }
  }

  lemma SentIsRun(w: World, items: seq<Item>, sent: seq<Item>) returns (run: seq<Event>)
    requires Fresh(w, items) && multiset(sent) <= multiset(items)
    ensures PushRun(w, run, SendAll(PutAll(w, items), sent))
  {
    var unsent := Unsent(items, sent);
    BatchIsPushes(w, items, sent, unsent);
    run := BatchRun(sent, unsent);
  }

  /** Whatever fails and whatever SQS takes, a batch has the effect of a legal run of
      single pushes, so it keeps what all runs keep. */
  lemma BatchIsRun(w: World, items: seq<Item>, f: JobId -> Faults, sent: seq<Item>) returns (run: seq<Event>)
    requires Fresh(w, items) && multiset(sent) <= multiset(items)
    requires FirstFailure(items, f) < |items| ==> sent == []
    ensures PushRun(w, run, SendAll(StoredBatch(w, items, f), sent))
  {
    if FirstFailure(items, f) == |items| {
      run := SentIsRun(w, items, sent);
    } else {
      run := StoredIsRun(w, items, f);
    }
  }

  // ---------- scheduled times ----------

  /** Single pushes of the jobs as they were submitted. */
  function Submitted(items: seq<Item>): (run: seq<Event>)
  {
    seq(|items|, i requires 0 <= i < |items| => Event(PushOp(items[i].id, items[i].sub), NO_FAULT))
  }

  lemma SubmittedTail(items: seq<Item>)
    requires items != []
    ensures Submitted(items) != [] && Submitted(items)[0] == Event(PushOp(items[0].id, items[0].sub), NO_FAULT)
    ensures Submitted(items)[1..] == Submitted(items[1..])
  {}

  /** The record Push makes of a submission. */
  function Recorded(it: Item, clock: int): Job {
    NewJob(it.sub, if Postponed(it.sub, clock) then Scheduled else Available)
  }

  lemma PushRecords(w: World, it: Item)
    ensures var w' := Apply(w, Event(PushOp(it.id, it.sub), NO_FAULT));
            && w'.jobs == w.jobs[it.id := Recorded(it, w.clock)] && w'.clock == w.clock
            && (!Postponed(it.sub, w.clock) ==> w' == Apply(w, PushEvent(it, NO_FAULT)))
  {
    assert NewJob(AtOnce(it.sub), Available) == NewJob(it.sub, Available);
  }

  lemma {:induction false} SubmittedRecords(w: World, items: seq<Item>, id: JobId)
    requires DistinctIds(items)
    ensures var w' := Exec(w, Submitted(items));
            && (forall i | 0 <= i < |items| && items[i].id == id ::
                  id in w'.jobs && w'.jobs[id] == Recorded(items[i], w.clock))
            && ((forall i | 0 <= i < |items| :: items[i].id != id) && id in w.jobs ==>
                  id in w'.jobs && w'.jobs[id] == w.jobs[id])
    decreases |items|
  {
    if items != [] {
      SubmittedTail(items);
      PushRecords(w, items[0]);
      var w1 := Apply(w, Submitted(items)[0]);
      SubmittedRecords(w1, items[1..], id);
      forall i | 0 <= i < |items| && items[i].id == id
        ensures id in Exec(w, Submitted(items)).jobs
                && Exec(w, Submitted(items)).jobs[id] == Recorded(items[i], w.clock)
      {
        if i > 0 { assert items[1..][i - 1] == items[i]; }
      }
    }
  }

  lemma {:induction false} BatchRecords(w: World, items: seq<Item>, i: nat)
    requires i < |items| && DistinctIds(items)
    ensures items[i].id in PutAll(w, items).jobs
    ensures PutAll(w, items).jobs[items[i].id] == NewJob(items[i].sub, Available)
  {
    PullFront(w, items, i);
    OthersKeep(Put(w, items[i]), Drop(items, i), items[i].id);
  }

  lemma {:induction false} OthersKeep(w: World, items: seq<Item>, id: JobId)
    requires id in w.jobs && forall i | 0 <= i < |items| :: items[i].id != id
    ensures id in PutAll(w, items).jobs && PutAll(w, items).jobs[id] == w.jobs[id]
    decreases |items|
  {
    if items != [] { OthersKeep(Put(w, items[0]), items[1..], id); }
  }

  lemma {:induction false} SubmittedAtOnce(w: World, items: seq<Item>)
    requires forall i | 0 <= i < |items| :: !Postponed(items[i].sub, w.clock)
    ensures Exec(w, Submitted(items)) == Exec(w, PushEvents(items, NO_FAULT))
    decreases |items|
  {
    if items != [] {
      SubmittedTail(items);
      Tail(items, NO_FAULT);
      PushRecords(w, items[0]);
      SubmittedAtOnce(Apply(w, Submitted(items)[0]), items[1..]);
    }
  }

  /** A successful batch does what single pushes of its jobs would do, if and only if none
      of them is scheduled for later. */
  lemma ScheduleIgnored(w: World, items: seq<Item>)
    requires Fresh(w, items)
    ensures Exec(w, Submitted(items)) == SendAll(PutAll(w, items), items) <==>
            forall i | 0 <= i < |items| :: !Postponed(items[i].sub, w.clock)
  {
    assert items + [] == items && BatchRun(items, []) == PushEvents(items, NO_FAULT);
    BatchIsPushes(w, items, items, []);
    if forall i | 0 <= i < |items| :: !Postponed(items[i].sub, w.clock) {
      SubmittedAtOnce(w, items);
    } else {
      var i :| 0 <= i < |items| && Postponed(items[i].sub, w.clock);
      SubmittedRecords(w, items, items[i].id);
      BatchRecords(w, items, i);
      SendAllKeepsJobs(PutAll(w, items), items);
    }
  }

  lemma {:induction false} SentHasMessage(w: World, items: seq<Item>, i: nat)
    requires i < |items|
    ensures !NoMessage(SendAll(w, items), items[i].id)
    decreases |items|
  {
    var w1 := Send(w, items[0]);
    if i > 0 {
      SentHasMessage(w1, items[1..], i - 1);
    } else {
      var m := NextMessage(w, items[0].id, items[0].sub.queue, items[0].sub.expiresAt);
      SendAllKeepsMessage(w1, items[1..], m);
    }
  }

  lemma {:induction false} SendAllKeepsMessage(w: World, items: seq<Item>, m: Message)
    requires m in w.msgs
    ensures m in SendAll(w, items).msgs
    decreases |items|
  {
    if items != [] { SendAllKeepsMessage(Send(w, items[0]), items[1..], m); }
  }

  /** A job that is scheduled for later is available, with a message, before its time. */
  lemma SentTooSoon(w: World, items: seq<Item>, i: nat)
    requires Fresh(w, items) && i < |items| && Postponed(items[i].sub, w.clock)
    ensures var w', id := SendAll(PutAll(w, items), items), items[i].id;
            && id in w'.jobs && w'.jobs[id].state == Available && !NoMessage(w', id)
  {
    BatchRecords(w, items, i);
    SendAllKeepsJobs(PutAll(w, items), items);
    SentHasMessage(PutAll(w, items), items, i);
  }
}
