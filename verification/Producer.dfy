/** sendBatchToSQS. The jobs of a batch are grouped by queue, each group is cut into requests
    of at most ten entries, and sending stops at the first request that is refused. The
    order of the queues is that of a map and arbitrary; SQS may take some of the entries
    of a request it refuses. */
module Producer {
  import opened Domain
  import opened Batches

  /** One entry of a request: its entry ID within the request and its job. */
  datatype Entry = Entry(id: nat, job: Item)

  datatype Request = Request(queue: QueueName, entries: seq<Entry>)

  /** The jobs of one queue, in input order. */
  function ForQueue(jobs: seq<Item>, q: QueueName): seq<Item> {
    if jobs == [] then []
    else ForQueue(jobs[..|jobs| - 1], q) + (if jobs[|jobs| - 1].sub.queue == q then [jobs[|jobs| - 1]] else [])
  }

  function JobsOf(r: Request): seq<Item> {
    seq(|r.entries|, i requires 0 <= i < |r.entries| => r.entries[i].job)
  }

  /** The jobs of all requests, in send order. */
  function Sent(rs: seq<Request>): seq<Item> {
    if rs == [] then [] else Sent(rs[..|rs| - 1]) + JobsOf(rs[|rs| - 1])
  }

  /** The jobs of the requests for one queue, in send order. */
  function SentTo(rs: seq<Request>, q: QueueName): seq<Item> {
    if rs == [] then []
    else SentTo(rs[..|rs| - 1], q) + (if rs[|rs| - 1].queue == q then JobsOf(rs[|rs| - 1]) else [])
  }

  /** What SQS accepts: 1 to 10 entries with distinct entry IDs; all jobs of the queue. */
  ghost predicate WellFormed(r: Request) {
    && 1 <= |r.entries| <= 10
    && (forall i, j | 0 <= i < j < |r.entries| :: r.entries[i].id != r.entries[j].id)
    && (forall i | 0 <= i < |r.entries| :: r.entries[i].job.sub.queue == r.queue)
  }

  ghost predicate Used(jobs: seq<Item>, q: QueueName) {
    exists i :: 0 <= i < |jobs| && jobs[i].sub.queue == q
  }

  /** A queue has an entry exactly when it has jobs, and the entry lists them. */
  ghost predicate GroupedFor(byQueue: map<QueueName, seq<Item>>, jobs: seq<Item>, q: QueueName) {
    (q in byQueue <==> ForQueue(jobs, q) != []) && (q in byQueue ==> byQueue[q] == ForQueue(jobs, q))
  }

  ghost predicate Grouped(byQueue: map<QueueName, seq<Item>>, jobs: seq<Item>) {
    forall q :: GroupedFor(byQueue, jobs, q)
  }

  function AddToGroup(byQueue: map<QueueName, seq<Item>>, x: Item): map<QueueName, seq<Item>> {
    byQueue[x.sub.queue := (if x.sub.queue in byQueue then byQueue[x.sub.queue] else []) + [x]]
  }

  lemma GroupOneMore(byQueue: map<QueueName, seq<Item>>, jobs: seq<Item>, x: Item)
    requires Grouped(byQueue, jobs)
    ensures Grouped(AddToGroup(byQueue, x), jobs + [x])
  {
    assert (jobs + [x])[..|jobs|] == jobs;
    forall q ensures GroupedFor(AddToGroup(byQueue, x), jobs + [x], q) { assert GroupedFor(byQueue, jobs, q); }
  }

  method GroupByQueue(jobs: seq<Item>) returns (byQueue: map<QueueName, seq<Item>>)
    ensures Grouped(byQueue, jobs)
  {
    byQueue := map[];
    for i := 0 to |jobs|
      invariant Grouped(byQueue, jobs[..i])
    {
      GroupOneMore(byQueue, jobs[..i], jobs[i]);
      assert jobs[..i] + [jobs[i]] == jobs[..i + 1];
      byQueue := AddToGroup(byQueue, jobs[i]);
    }
    assert jobs[..|jobs|] == jobs;
  }

  method BuildRequest(queue: QueueName, chunk: seq<Item>) returns (r: Request)
    requires 1 <= |chunk| <= 10 && forall i | 0 <= i < |chunk| :: chunk[i].sub.queue == queue
    ensures r.queue == queue && JobsOf(r) == chunk && WellFormed(r)
  {
    var entries := [];
    for idx := 0 to |chunk|
      invariant |entries| == idx
      invariant forall i | 0 <= i < idx :: entries[i] == Entry(i, chunk[i])
    {
      entries := entries + [Entry(idx, chunk[idx])];
    }
    r := Request(queue, entries);
  }

  /** One queue's jobs in chunks of ten. `accepts` is SQS: a request it refuses, wholly
      or in part, ends the batch with an error. */
  method SendQueue(queue: QueueName, jobs: seq<Item>, accepts: Request -> bool) returns (ok: bool, rs: seq<Request>)
    requires forall i | 0 <= i < |jobs| :: jobs[i].sub.queue == queue
    ensures forall i | 0 <= i < |rs| :: WellFormed(rs[i]) && rs[i].queue == queue
    ensures ok ==> Sent(rs) == jobs && forall i | 0 <= i < |rs| :: accepts(rs[i])
    ensures !ok ==> rs != [] && !accepts(rs[|rs| - 1]) && Sent(rs) <= jobs
    ensures !ok ==> forall i | 0 <= i < |rs| - 1 :: accepts(rs[i])
    ensures forall i | 0 <= i < |rs| - 1 :: |rs[i].entries| == 10
  {
    rs := [];
    var i := 0;
    assert jobs[..0] == [];
    while i < |jobs|
      invariant 0 <= i <= |jobs| && Sent(rs) == jobs[..i]
      invariant forall i | 0 <= i < |rs| :: WellFormed(rs[i]) && rs[i].queue == queue && accepts(rs[i])
      invariant forall k | 0 <= k < |rs| :: |rs[k].entries| == 10 || (k == |rs| - 1 && i == |jobs|)
    {
      var end := i + 10;
      if end > |jobs| {
        end := |jobs|;
      }
      var r := BuildRequest(queue, jobs[i..end]);
      assert (rs + [r])[..|rs|] == rs && jobs[..end] == jobs[..i] + jobs[i..end];
      rs := rs + [r];
      if !accepts(r) {
        return false, rs;
      }
      i := end;
    }
    assert jobs[..i] == jobs;
    ok := true;
  }

  // ---------- the whole batch ----------

  lemma {:induction false} SentToConcat(a: seq<Request>, b: seq<Request>, q: QueueName)
    ensures SentTo(a + b, q) == SentTo(a, q) + SentTo(b, q)
    decreases |b|
  {
    if b == [] {
      assert a + b == a;
    } else {
      var n := |b| - 1;
      SentToConcat(a, b[..n], q);
      var c := a + b;
      assert c[..|c| - 1] == a + b[..n] && c[|c| - 1] == b[n];
      var tail := if b[n].queue == q then JobsOf(b[n]) else [];
      assert SentTo(c, q) == SentTo(a + b[..n], q) + tail && SentTo(b, q) == SentTo(b[..n], q) + tail;
    }
  }

  lemma {:induction false} SentToOwn(rs: seq<Request>, queue: QueueName)
    requires forall i | 0 <= i < |rs| :: rs[i].queue == queue
    ensures SentTo(rs, queue) == Sent(rs)
    decreases |rs|
  {
    if rs != [] {
      var n := |rs| - 1;
      SentToOwn(rs[..n], queue);
    }
  }

  lemma {:induction false} SentToOther(rs: seq<Request>, queue: QueueName, q: QueueName)
    requires q != queue && forall i | 0 <= i < |rs| :: rs[i].queue == queue
    ensures SentTo(rs, q) == []
    decreases |rs|
  {
    if rs != [] {
      var n := |rs| - 1;
      SentToOther(rs[..n], queue, q);
    }
  }

  /** The queues in `done` have been sent their jobs, the others nothing. */
  ghost predicate Served(rs: seq<Request>, jobs: seq<Item>, done: seq<QueueName>) {
    forall q :: ServedTo(rs, jobs, done, q)
  }

  ghost predicate ServedTo(rs: seq<Request>, jobs: seq<Item>, done: seq<QueueName>, q: QueueName) {
    SentTo(rs, q) == if q in done then ForQueue(jobs, q) else []
  }

  lemma ServeOne(rs: seq<Request>, more: seq<Request>, jobs: seq<Item>, done: seq<QueueName>, queue: QueueName)
    requires Served(rs, jobs, done) && queue !in done
    requires (forall i | 0 <= i < |more| :: more[i].queue == queue) && Sent(more) == ForQueue(jobs, queue)
    ensures Served(rs + more, jobs, done + [queue])
  {
    forall q ensures ServedTo(rs + more, jobs, done + [queue], q) {
      assert ServedTo(rs, jobs, done, q) && (q in done + [queue] <==> q in done || q == queue);
      SentToConcat(rs, more, q);
      if q == queue { SentToOwn(more, queue); } else { SentToOther(more, queue, q); }
    }
  }

  /** No queue has been sent more than a prefix of its jobs. */
  ghost predicate Partly(rs: seq<Request>, jobs: seq<Item>) {
    forall q :: SentTo(rs, q) <= ForQueue(jobs, q)
  }

  lemma ServePart(rs: seq<Request>, more: seq<Request>, jobs: seq<Item>, done: seq<QueueName>, queue: QueueName)
    requires Served(rs, jobs, done) && queue !in done
    requires (forall i | 0 <= i < |more| :: more[i].queue == queue) && Sent(more) <= ForQueue(jobs, queue)
    ensures Partly(rs + more, jobs)
  {
    forall q ensures SentTo(rs + more, q) <= ForQueue(jobs, q) {
      assert ServedTo(rs, jobs, done, q);
      SentToConcat(rs, more, q);
      if q == queue { SentToOwn(more, queue); } else { SentToOther(more, queue, q); }
    }
  }

  lemma PrefixCount(a: seq<Item>, b: seq<Item>, x: Item)
    requires a <= b
    ensures multiset(a)[x] <= multiset(b)[x]
  {
    assert b == a + b[|a|..];
  }

  lemma NothingAdded(rs: seq<Request>, jobs: seq<Item>)
    requires (forall i | 0 <= i < |rs| :: WellFormed(rs[i])) && Partly(rs, jobs)
    ensures multiset(Sent(rs)) <= multiset(jobs)
  {
    forall x ensures multiset(Sent(rs))[x] <= multiset(jobs)[x] {
      CountSent(rs, x);
      CountForQueue(jobs, x);
      PrefixCount(SentTo(rs, x.sub.queue), ForQueue(jobs, x.sub.queue), x);
    }
  }

  lemma AllServed(rs: seq<Request>, jobs: seq<Item>, order: seq<QueueName>)
    requires Served(rs, jobs, order) && Ordering(order, jobs)
    ensures forall q :: SentTo(rs, q) == ForQueue(jobs, q)
  {
    forall q ensures SentTo(rs, q) == ForQueue(jobs, q) {
      assert ServedTo(rs, jobs, order, q);
      UsedQueue(jobs, q);
    }
  }

  lemma {:induction false} CountSent(rs: seq<Request>, x: Item)
    requires forall i | 0 <= i < |rs| :: WellFormed(rs[i])
    ensures multiset(Sent(rs))[x] == multiset(SentTo(rs, x.sub.queue))[x]
    decreases |rs|
  {
    if rs != [] {
      var n := |rs| - 1;
      CountSent(rs[..n], x);
      if rs[n].queue != x.sub.queue {
        forall i | 0 <= i < |JobsOf(rs[n])| ensures JobsOf(rs[n])[i] != x {
          assert rs[n].entries[i].job.sub.queue == rs[n].queue;
        }
        assert x !in JobsOf(rs[n]);
      }
    }
  }

  lemma CountAppend(a: seq<Item>, y: Item, x: Item)
    ensures multiset(a + [y])[x] == multiset(a)[x] + if x == y then 1 else 0
  {}

  lemma {:induction false} CountForQueue(jobs: seq<Item>, x: Item)
    ensures multiset(ForQueue(jobs, x.sub.queue))[x] == multiset(jobs)[x]
    decreases |jobs|
  {
    if jobs != [] {
      var n := |jobs| - 1;
      CountForQueue(jobs[..n], x);
      assert jobs == jobs[..n] + [jobs[n]];
      CountAppend(jobs[..n], jobs[n], x);
      CountAppend(ForQueue(jobs[..n], x.sub.queue), jobs[n], x);
    }
  }

  lemma {:induction false} ForQueueIsOfQueue(jobs: seq<Item>, q: QueueName, i: nat)
    requires i < |ForQueue(jobs, q)|
    ensures ForQueue(jobs, q)[i].sub.queue == q
    decreases |jobs|
  {
    var n := |jobs| - 1;
    if i < |ForQueue(jobs[..n], q)| { ForQueueIsOfQueue(jobs[..n], q, i); }
  }

  lemma NothingLost(rs: seq<Request>, jobs: seq<Item>)
    requires forall i | 0 <= i < |rs| :: WellFormed(rs[i])
    requires forall q :: SentTo(rs, q) == ForQueue(jobs, q)
    ensures multiset(Sent(rs)) == multiset(jobs)
  {
    forall x ensures multiset(Sent(rs))[x] == multiset(jobs)[x] {
      CountSent(rs, x);
      CountForQueue(jobs, x);
    }
  }

  /** An iteration order of the queues of a batch. */
  ghost predicate Ordering(order: seq<QueueName>, jobs: seq<Item>) {
    && (forall i, j | 0 <= i < j < |order| :: order[i] != order[j])
    && (forall q :: q in order <==> Used(jobs, q))
  }

  method SendGroup(queue: QueueName, mine: seq<Item>, ghost jobs: seq<Item>, accepts: Request -> bool)
    returns (sent: bool, rs: seq<Request>)
    requires mine == ForQueue(jobs, queue)
    ensures forall i | 0 <= i < |rs| :: WellFormed(rs[i]) && rs[i].queue == queue
    ensures sent ==> Sent(rs) == mine && forall i | 0 <= i < |rs| :: accepts(rs[i])
    ensures !sent ==> rs != [] && !accepts(rs[|rs| - 1]) && Sent(rs) <= mine
    ensures !sent ==> forall i | 0 <= i < |rs| - 1 :: accepts(rs[i])
  {
    forall i | 0 <= i < |mine| ensures mine[i].sub.queue == queue { ForQueueIsOfQueue(jobs, queue, i); }
    sent, rs := SendQueue(queue, mine, accepts);
  }

  lemma NotYet(order: seq<QueueName>, k: nat)
    requires k < |order| && forall i, j | 0 <= i < j < |order| :: order[i] != order[j]
    ensures order[k] !in order[..k] && order[..k + 1] == order[..k] + [order[k]]
  {}

  ghost predicate AllWellFormed(rs: seq<Request>) {
    forall i | 0 <= i < |rs| :: WellFormed(rs[i])
  }

  ghost predicate AllAccepted(rs: seq<Request>, accepts: Request -> bool) {
    forall i | 0 <= i < |rs| :: accepts(rs[i])
  }

  lemma Joined(a: seq<Request>, b: seq<Request>, accepts: Request -> bool)
    requires AllWellFormed(a) && AllWellFormed(b)
    ensures AllWellFormed(a + b)
    ensures AllAccepted(a + b, accepts) <==> AllAccepted(a, accepts) && AllAccepted(b, accepts)
  {
    assert forall i | 0 <= i < |a| :: (a + b)[i] == a[i];
    assert forall i | 0 <= i < |b| :: (a + b)[|a| + i] == b[i];
  }

  method SendGroups(byQueue: map<QueueName, seq<Item>>, order: seq<QueueName>, ghost jobs: seq<Item>,
                    accepts: Request -> bool)
    returns (ok: bool, rs: seq<Request>)
    requires forall i, j | 0 <= i < j < |order| :: order[i] != order[j]
    requires forall i | 0 <= i < |order| :: order[i] in byQueue && byQueue[order[i]] == ForQueue(jobs, order[i])
    ensures AllWellFormed(rs) && (ok <==> AllAccepted(rs, accepts))
    ensures ok ==> Served(rs, jobs, order)
    ensures !ok ==> Partly(rs, jobs) && rs != [] && AllAccepted(rs[..|rs| - 1], accepts)
  {
    rs := [];
    for k := 0 to |order|
      invariant AllWellFormed(rs) && AllAccepted(rs, accepts) && Served(rs, jobs, order[..k])
    {
      var queue := order[k];
      var sent, more := SendGroup(queue, byQueue[queue], jobs, accepts);
      Joined(rs, more, accepts);
      NotYet(order, k);
      if !sent {
        ServePart(rs, more, jobs, order[..k], queue);
        Joined(rs, more[..|more| - 1], accepts);
        assert (rs + more)[..|rs + more| - 1] == rs + more[..|more| - 1];
        return false, rs + more;
      }
      ServeOne(rs, more, jobs, order[..k], queue);
      rs := rs + more;
    }
    ok := true;
    assert order[..|order|] == order;
  }

  /** For every batch and every iteration order: requests are well-formed, and a
      successful batch sends each queue its jobs in input order and loses, duplicates
      or misroutes nothing. A failed one ends with the first refused request and has
      tried no job twice. */
  method SendBatch(jobs: seq<Item>, order: seq<QueueName>, accepts: Request -> bool)
    returns (ok: bool, rs: seq<Request>)
    requires Ordering(order, jobs)
    ensures AllWellFormed(rs) && (ok <==> AllAccepted(rs, accepts))
    ensures ok ==> (forall q :: SentTo(rs, q) == ForQueue(jobs, q)) && multiset(Sent(rs)) == multiset(jobs)
    ensures !ok ==> rs != [] && AllAccepted(rs[..|rs| - 1], accepts) && multiset(Sent(rs)) <= multiset(jobs)
  {
    var byQueue := GroupByQueue(jobs);
    forall i | 0 <= i < |order| ensures order[i] in byQueue && byQueue[order[i]] == ForQueue(jobs, order[i]) {
      assert order[i] in order;
      UsedQueue(jobs, order[i]);
      assert GroupedFor(byQueue, jobs, order[i]);
    }
    ok, rs := SendGroups(byQueue, order, jobs, accepts);
    if ok {
      AllServed(rs, jobs, order);
      NothingLost(rs, jobs);
    } else {
      NothingAdded(rs, jobs);
    }
  }

  lemma {:induction false} UsedQueue(jobs: seq<Item>, q: QueueName)
    ensures Used(jobs, q) <==> ForQueue(jobs, q) != []
    decreases |jobs|
  {
    if jobs != [] {
      var n := |jobs| - 1;
      UsedQueue(jobs[..n], q);
      if Used(jobs[..n], q) {
        var i :| 0 <= i < n && jobs[..n][i].sub.queue == q;
        assert jobs[i].sub.queue == q;
      }
      if jobs[n].sub.queue == q { assert Used(jobs, q); }
      if Used(jobs, q) && jobs[n].sub.queue != q {
        var i :| 0 <= i < |jobs| && jobs[i].sub.queue == q;
        assert jobs[..n][i].sub.queue == q;
      }
    }
  }

  // ---------- what SQS takes ----------

  /** The entries of a request that SQS takes although it reports a failure. */
  function SomeOf(r: Request, took: (Request, nat) -> bool, n: nat): seq<Item>
    requires n <= |r.entries|
  {
    if n == 0 then [] else SomeOf(r, took, n - 1) + (if took(r, n - 1) then [r.entries[n - 1].job] else [])
  }

  /** The jobs SQS takes, in send order: all of an accepted request, some of a refused one. */
  function Taken(rs: seq<Request>, accepts: Request -> bool, took: (Request, nat) -> bool): seq<Item> {
    if rs == [] then []
    else Taken(rs[..|rs| - 1], accepts, took) + TakenFrom(rs[|rs| - 1], accepts, took)
  }

  lemma Concat(a: seq<Item>, b: seq<Item>, c: seq<Item>, d: seq<Item>)
    requires multiset(a) <= multiset(b) && multiset(c) <= multiset(d)
    ensures multiset(a + c) <= multiset(b + d)
  {}

  lemma OneMore(a: seq<Item>, b: seq<Item>, x: Item, too: bool)
    requires multiset(a) <= multiset(b)
    ensures multiset(a + if too then [x] else []) <= multiset(b + [x])
  {
    if !too { assert a + [] == a; }
  }

  lemma JobsUpTo(r: Request, n: nat)
    requires 0 < n <= |r.entries|
    ensures JobsOf(r)[..n] == JobsOf(r)[..n - 1] + [r.entries[n - 1].job]
  {}

  lemma {:induction false} SomeOfJobs(r: Request, took: (Request, nat) -> bool, n: nat)
    requires n <= |r.entries|
    ensures multiset(SomeOf(r, took, n)) <= multiset(JobsOf(r)[..n])
  {
    if n > 0 {
      SomeOfJobs(r, took, n - 1);
      var x := r.entries[n - 1].job;
      JobsUpTo(r, n);
      OneMore(SomeOf(r, took, n - 1), JobsOf(r)[..n - 1], x, took(r, n - 1));
    }
  }

  function TakenFrom(r: Request, accepts: Request -> bool, took: (Request, nat) -> bool): seq<Item> {
    if accepts(r) then JobsOf(r) else SomeOf(r, took, |r.entries|)
  }

  lemma TakenFromJobs(r: Request, accepts: Request -> bool, took: (Request, nat) -> bool)
    ensures multiset(TakenFrom(r, accepts, took)) <= multiset(JobsOf(r))
  {
    SomeOfJobs(r, took, |r.entries|);
    assert JobsOf(r)[..|r.entries|] == JobsOf(r);
  }

  lemma {:induction false} TakenOfSent(rs: seq<Request>, accepts: Request -> bool, took: (Request, nat) -> bool)
    ensures multiset(Taken(rs, accepts, took)) <= multiset(Sent(rs))
    decreases |rs|
  {
    if rs != [] {
      var n := |rs| - 1;
      TakenOfSent(rs[..n], accepts, took);
      TakenFromJobs(rs[n], accepts, took);
      Concat(Taken(rs[..n], accepts, took), Sent(rs[..n]), TakenFrom(rs[n], accepts, took), JobsOf(rs[n]));
    }
  }

  lemma {:induction false} AllTaken(rs: seq<Request>, accepts: Request -> bool, took: (Request, nat) -> bool)
    requires AllAccepted(rs, accepts)
    ensures Taken(rs, accepts, took) == Sent(rs)
    decreases |rs|
  {
    if rs != [] {
      var n := |rs| - 1;
      assert AllAccepted(rs[..n], accepts) by { assert forall i | 0 <= i < n :: rs[..n][i] == rs[i]; }
      AllTaken(rs[..n], accepts, took);
      assert TakenFrom(rs[n], accepts, took) == JobsOf(rs[n]);
    }
  }
}
