/** Listing jobs. ListAllJobs has two paths: with a state filter alone it queries the state
    index and reads as much as the page needs, and otherwise it scans the table, filters,
    sorts and cuts. Each path is a method here, and the lemmas compare what they return:
    the totals, the records over all pages, and the single pages. */
module Listing {
  import I = Indexes
  import U = Updates

  datatype Record = Record(id: string, state: string, queue: string, jobType: string, worker: string, createdAt: int)

  /** Empty strings do not filter. */
  datatype Filters = Filters(state: string, queue: string, jobType: string, worker: string)

  predicate Passes(r: Record, f: Filters) {
    && (f.state == "" || r.state == f.state)
    && (f.queue == "" || r.queue == f.queue)
    && (f.jobType == "" || r.jobType == f.jobType)
    && (f.worker == "" || r.worker == f.worker)
  }

  function Filtered(rs: seq<Record>, f: Filters): seq<Record> {
    if rs == [] then []
    else Filtered(rs[..|rs| - 1], f) + (if Passes(rs[|rs| - 1], f) then [rs[|rs| - 1]] else [])
  }

  lemma CountSnoc(rs: seq<Record>, x: Record, r: Record)
    ensures multiset(rs + [x])[r] == multiset(rs)[r] + if x == r then 1 else 0
  {}

  lemma {:induction false} PassingCount(rs: seq<Record>, f: Filters, r: Record)
    ensures multiset(Filtered(rs, f))[r] == if Passes(r, f) then multiset(rs)[r] else 0
    decreases |rs|
  {
    if rs != [] {
      var n := |rs| - 1;
      PassingCount(rs[..n], f, r);
      assert rs == rs[..n] + [rs[n]];
      CountSnoc(rs[..n], rs[n], r);
      if Passes(rs[n], f) {
        CountSnoc(Filtered(rs[..n], f), rs[n], r);
      } else {
        assert Filtered(rs, f) == Filtered(rs[..n], f);
      }
    }
  }

  /** A record is kept, with its multiplicity, if and only if it has the state, queue, type
      and worker asked for. */
  lemma FilteredCount(rs: seq<Record>, f: Filters, r: Record)
    ensures multiset(Filtered(rs, f))[r] ==
            if f.state in {"", r.state} && f.queue in {"", r.queue} && f.jobType in {"", r.jobType}
               && f.worker in {"", r.worker}
            then multiset(rs)[r] else 0
  {
    PassingCount(rs, f, r);
  }

  function Flatten(pages: seq<seq<Record>>): seq<Record> {
    if pages == [] then [] else Flatten(pages[..|pages| - 1]) + pages[|pages| - 1]
  }

  function Min(a: nat, b: nat): nat {
    if a < b then a else b
  }

  /** The part of a list that a page shows. */
  function Window(s: seq<Record>, limit: nat, offset: nat): seq<Record> {
    s[Min(offset, |s|)..Min(offset + limit, |s|)]
  }

  ghost predicate NewestFirst(s: seq<Record>) {
    forall i, j | 0 <= i < j < |s| :: s[i].createdAt >= s[j].createdAt
  }

  /** The same records, newest first. */
  ghost predicate Arrangement(s: seq<Record>, rs: seq<Record>) {
    multiset(s) == multiset(rs) && NewestFirst(s)
  }

  /** The order of the state index, whose sort key is the creation time. */
  ghost predicate OldestFirst(s: seq<Record>) {
    forall i, j | 0 <= i < j < |s| :: s[i].createdAt <= s[j].createdAt
  }

  /** ListJobsByState on the state's index entries: the query returns the first
      `limit + offset` of them and the offset is applied afterwards. */
  method ListJobsByState(index: seq<Record>, limit: nat, offset: nat) returns (page: seq<Record>, total: nat)
    ensures total == |index| && page == Window(index, limit, offset)
  {
    total := |index|;
    var items := index[..Min(limit + offset, |index|)];
    if offset >= |items| {
      return [], total;
    }
    if offset + limit > |items| {
      items := items[offset..];
    } else {
      items := items[offset..offset + limit];
    }
    page := items;
  }

  method InsertByAge(s: seq<Record>, x: Record) returns (t: seq<Record>)
    requires NewestFirst(s)
    ensures NewestFirst(t) && multiset(t) == multiset(s) + multiset{x}
  {
    var p := 0;
    while p < |s| && s[p].createdAt >= x.createdAt
      invariant 0 <= p <= |s| && forall j | 0 <= j < p :: s[j].createdAt >= x.createdAt
    {
      p := p + 1;
    }
    InsertKeeps(s, p, x);
    t := s[..p] + [x] + s[p..];
  }

  method SortNewestFirst(rs: seq<Record>) returns (s: seq<Record>)
    ensures multiset(s) == multiset(rs) && NewestFirst(s)
  {
    s := [];
    for i := 0 to |rs|
      invariant multiset(s) == multiset(rs[..i]) && NewestFirst(s)
    {
      assert rs[..i + 1] == rs[..i] + [rs[i]];
      s := InsertByAge(s, rs[i]);
    }
    assert rs[..|rs|] == rs;
  }

  lemma InsertKeeps(s: seq<Record>, p: nat, x: Record)
    requires NewestFirst(s) && p <= |s|
    requires (forall j | 0 <= j < p :: s[j].createdAt >= x.createdAt) && (p < |s| ==> s[p].createdAt < x.createdAt)
    ensures NewestFirst(s[..p] + [x] + s[p..])
    ensures multiset(s[..p] + [x] + s[p..]) == multiset(s) + multiset{x}
  {
    InsertSorted(s, p, x);
    assert s == s[..p] + s[p..];
  }

  lemma InsertSorted(s: seq<Record>, p: nat, x: Record)
    requires NewestFirst(s) && p <= |s|
    requires (forall j | 0 <= j < p :: s[j].createdAt >= x.createdAt) && (p < |s| ==> s[p].createdAt < x.createdAt)
    ensures NewestFirst(s[..p] + [x] + s[p..])
  {
    var t := s[..p] + [x] + s[p..];
    assert forall j | 0 <= j < |t| :: t[j] == if j < p then s[j] else if j == p then x else s[j - 1];
  }

  /** The scan path: all pages of the scan are collected, filtered, sorted and cut. */
  method ScanJobs(pages: seq<seq<Record>>, f: Filters, limit: nat, offset: nat)
    returns (page: seq<Record>, total: nat)
    ensures total == |Filtered(Flatten(pages), f)|
    ensures exists sorted :: Arrangement(sorted, Filtered(Flatten(pages), f)) && page == Window(sorted, limit, offset)
  {
    var all := [];
    for i := 0 to |pages|
      invariant all == Flatten(pages[..i])
    {
      assert pages[..i + 1][..i] == pages[..i];
      all := all + pages[i];
    }
    assert pages[..|pages|] == pages;
    var filtered := [];
    for i := 0 to |all|
      invariant filtered == Filtered(all[..i], f)
    {
      var r := all[i];
      assert all[..i + 1][..i] == all[..i];
      if f.state != "" && r.state != f.state { continue; }
      if f.queue != "" && r.queue != f.queue { continue; }
      if f.jobType != "" && r.jobType != f.jobType { continue; }
      if f.worker != "" && r.worker != f.worker { continue; }
      filtered := filtered + [r];
    }
    assert all[..|all|] == all;
    total := |filtered|;
    filtered := SortNewestFirst(filtered);
    assert Arrangement(filtered, Filtered(Flatten(pages), f));
    if offset >= |filtered| {
      assert Window(filtered, limit, offset) == [];
      return [], total;
    }
    var end := offset + limit;
    if end > |filtered| {
      end := |filtered|;
    }
    page := filtered[offset..end];
    assert page == Window(filtered, limit, offset);
  }

  // ---------- paging ----------

  /** The first `k` pages of a list, one after the other. */
  function Paged(s: seq<Record>, limit: nat, k: nat): seq<Record> {
    if k == 0 then [] else Paged(s, limit, k - 1) + Window(s, limit, (k - 1) * limit)
  }

  /** Pages neither overlap nor leave gaps. */
  lemma {:induction false} PagesTile(s: seq<Record>, limit: nat, k: nat)
    ensures Paged(s, limit, k) == s[..Min(k * limit, |s|)]
  {
    if k > 0 {
      PagesTile(s, limit, k - 1);
      assert (k - 1) * limit + limit == k * limit;
    }
  }

  lemma SameRecords(records: seq<Record>, state: string, index: seq<Record>)
    requires state != ""
    requires forall x :: multiset(index)[x] == if x.state == state then multiset(records)[x] else 0
    ensures multiset(index) == multiset(Filtered(records, Filters(state, "", "", "")))
  {
    var f := Filters(state, "", "", "");
    forall x ensures multiset(index)[x] == multiset(Filtered(records, f))[x] { FilteredAll(records, f, x); }
  }

  /** For a filter on the state alone, the index path and the scan path report the same
      total and, over all pages, the same records, given that the index holds exactly
      the records with that state. */
  lemma IndexPathAgrees(records: seq<Record>, state: string, index: seq<Record>, sorted: seq<Record>,
                        limit: nat, k: nat)
    requires state != ""
    requires forall x :: multiset(index)[x] == if x.state == state then multiset(records)[x] else 0
    requires Arrangement(sorted, Filtered(records, Filters(state, "", "", "")))
    requires k * limit >= |index|
    ensures |index| == |sorted|
    ensures multiset(Paged(index, limit, k)) == multiset(Paged(sorted, limit, k)) == multiset(index)
  {
    SameRecords(records, state, index);
    assert |multiset(index)| == |multiset(sorted)|;
    PagesTile(index, limit, k);
    PagesTile(sorted, limit, k);
    assert index[..|index|] == index && sorted[..|sorted|] == sorted;
  }

  lemma {:induction false} FilteredAll(rs: seq<Record>, f: Filters, x: Record)
    ensures multiset(Filtered(rs, f))[x] == if Passes(x, f) then multiset(rs)[x] else 0
    decreases |rs|
  {
    if rs != [] {
      var n := |rs| - 1;
      FilteredAll(rs[..n], f, x);
      assert rs == rs[..n] + [rs[n]];
    }
  }

  // ---------- page by page ----------

  function Times(s: seq<Record>): (ts: seq<int>)
    ensures |ts| == |s|
  {
    seq(|s|, i requires 0 <= i < |s| => s[i].createdAt)
  }

  function Reverse(s: seq<int>): (r: seq<int>)
    ensures |r| == |s|
  {
    seq(|s|, i requires 0 <= i < |s| => s[|s| - 1 - i])
  }

  ghost predicate Ascending(s: seq<int>) {
    forall i, j | 0 <= i < j < |s| :: s[i] <= s[j]
  }

  ghost predicate Constant(s: seq<int>) {
    forall i | 0 <= i < |s| :: s[i] == s[0]
  }

  /** Two ascending lists of the same numbers are the same list. */
  lemma {:induction false} SortedUnique(a: seq<int>, b: seq<int>)
    requires Ascending(a) && Ascending(b) && multiset(a) == multiset(b)
    ensures a == b
    decreases |a|
  {
    assert |multiset(a)| == |multiset(b)|;
    if a != [] {
      SameLeast(a, b);
      assert a == [a[0]] + a[1..] && b == [b[0]] + b[1..];
      assert multiset(a[1..]) == multiset(a) - multiset{a[0]} && multiset(b[1..]) == multiset(b) - multiset{b[0]};
      SortedUnique(a[1..], b[1..]);
    }
  }

  lemma SameLeast(a: seq<int>, b: seq<int>)
    requires Ascending(a) && Ascending(b) && multiset(a) == multiset(b) && a != [] && b != []
    ensures a[0] == b[0]
  {
    assert a[0] in multiset(b) && b[0] in multiset(a);
    var i :| 0 <= i < |b| && b[i] == a[0];
    var j :| 0 <= j < |a| && a[j] == b[0];
  }

  lemma {:induction false} ReverseKeeps(s: seq<int>)
    ensures multiset(Reverse(s)) == multiset(s)
    decreases |s|
  {
    if s != [] {
      ReverseKeeps(s[1..]);
      assert Reverse(s) == Reverse(s[1..]) + [s[0]] && s == [s[0]] + s[1..];
    }
  }

  lemma TimesConcat(a: seq<Record>, b: seq<Record>)
    ensures Times(a + b) == Times(a) + Times(b)
  {}

  /** A list and its times without the `j`-th record. */
  lemma PullOut(b: seq<Record>, j: nat)
    requires j < |b|
    ensures var rest := b[..j] + b[j + 1..];
            && multiset(b) == multiset(rest) + multiset{b[j]}
            && multiset(Times(b)) == multiset(Times(rest)) + multiset{b[j].createdAt}
  {
    assert b == b[..j] + [b[j]] + b[j + 1..];
    TimesConcat(b[..j], b[j + 1..]);
    TimesConcat(b[..j] + [b[j]], b[j + 1..]);
    TimesConcat(b[..j], [b[j]]);
    assert Times([b[j]]) == [b[j].createdAt];
  }

  lemma Cancel(m: multiset<Record>, n: multiset<Record>, x: Record)
    requires m + multiset{x} == n + multiset{x}
    ensures m == n
  {
    assert m == (m + multiset{x}) - multiset{x} && n == (n + multiset{x}) - multiset{x};
  }

  /** Two lists of the same records, each without the first record of the first one. */
  lemma PullSame(a: seq<Record>, b: seq<Record>) returns (p: seq<Record>, q: seq<Record>)
    requires multiset(a) == multiset(b) && a != []
    ensures multiset(p) == multiset(q) && |p| < |a|
    ensures multiset(Times(a)) == multiset(Times(p)) + multiset{a[0].createdAt}
    ensures multiset(Times(b)) == multiset(Times(q)) + multiset{a[0].createdAt}
  {
    assert a[0] in multiset(b);
    var j :| 0 <= j < |b| && b[j] == a[0];
    PullOut(a, 0);
    PullOut(b, j);
    p, q := a[..0] + a[0 + 1..], b[..j] + b[j + 1..];
    Cancel(multiset(p), multiset(q), a[0]);
  }

  lemma {:induction false} SameTimes(a: seq<Record>, b: seq<Record>)
    requires multiset(a) == multiset(b)
    ensures multiset(Times(a)) == multiset(Times(b))
    decreases |a|
  {
    if a == [] {
      assert |multiset(a)| == |multiset(b)|;
    } else {
      var p, q := PullSame(a, b);
      SameTimes(p, q);
    }
  }

  /** The newest-first times are the oldest-first ones read backwards. */
  lemma Mirrored(index: seq<Record>, sorted: seq<Record>)
    requires OldestFirst(index) && NewestFirst(sorted) && multiset(index) == multiset(sorted)
    ensures |index| == |sorted| && Times(index) == Reverse(Times(sorted))
  {
    assert |multiset(index)| == |multiset(sorted)|;
    SameTimes(index, sorted);
    ReverseKeeps(Times(sorted));
    SortedUnique(Times(index), Reverse(Times(sorted)));
  }

  lemma {:induction false} ShiftedIsConstant(a: seq<int>, d: nat, i: nat)
    requires Ascending(a) && 0 < d < |a| && i < |a| && a[..|a| - d] == a[d..]
    ensures a[i] == a[0]
    decreases i
  {
    assert forall j | 0 <= j < |a| - d :: a[j] == a[..|a| - d][j] && a[d..][j] == a[j + d];
    if i >= d {
      ShiftedIsConstant(a, d, i - d);
      assert a[i - d] == a[i];
    } else {
      assert a[0] == a[d];
    }
  }

  /** The first page of one path is the end of the other, read backwards. */
  lemma PageMirrored(index: seq<Record>, sorted: seq<Record>, limit: nat)
    requires |sorted| == |index| && limit <= |index| && Times(index) == Reverse(Times(sorted))
    ensures Reverse(Times(sorted[..limit])) == Times(index)[|index| - limit..]
  {
    var n := |index|;
    forall i | 0 <= i < limit ensures Reverse(Times(sorted[..limit]))[i] == Times(index)[n - limit + i] {
      assert Times(index)[n - limit + i] == Reverse(Times(sorted))[n - limit + i];
    }
  }

  /** If the first page shows the same creation times on both paths and does not hold
      everything, all records have the same creation time. */
  lemma FirstPageTells(index: seq<Record>, sorted: seq<Record>, limit: nat)
    requires OldestFirst(index) && NewestFirst(sorted) && multiset(index) == multiset(sorted)
    requires 0 < limit < |index| && |sorted| == |index|
    requires multiset(Times(index[..limit])) == multiset(Times(sorted[..limit]))
    ensures Constant(Times(index))
  {
    Mirrored(index, sorted);
    HeadAndTail(index, sorted, limit);
    HeadIsTail(Times(index), limit);
  }

  lemma HeadAndTail(index: seq<Record>, sorted: seq<Record>, limit: nat)
    requires |sorted| == |index| && limit <= |index| && Times(index) == Reverse(Times(sorted))
    requires multiset(Times(index[..limit])) == multiset(Times(sorted[..limit]))
    ensures multiset(Times(index)[..limit]) == multiset(Times(index)[|index| - limit..])
  {
    PageMirrored(index, sorted, limit);
    ReverseKeeps(Times(sorted[..limit]));
    assert Times(index[..limit]) == Times(index)[..limit];
  }

  lemma HeadIsTail(a: seq<int>, limit: nat)
    requires Ascending(a) && 0 < limit < |a| && multiset(a[..limit]) == multiset(a[|a| - limit..])
    ensures Constant(a)
  {
    SortedUnique(a[..limit], a[|a| - limit..]);
    forall i | 0 <= i < |a| ensures a[i] == a[0] { ShiftedIsConstant(a, |a| - limit, i); }
  }

  /** Page `k` shows records of the same creation times on both paths. */
  ghost predicate PageAgrees(index: seq<Record>, sorted: seq<Record>, limit: nat, k: nat) {
    multiset(Times(Window(index, limit, k * limit))) == multiset(Times(Window(sorted, limit, k * limit)))
  }

  lemma LaterPages(limit: nat, k: nat)
    requires k > 0
    ensures k * limit >= limit
  {
    if k > 1 { LaterPages(limit, k - 1); }
  }

  lemma OnePage(index: seq<Record>, sorted: seq<Record>, limit: nat, k: nat)
    requires |sorted| == |index| && multiset(index) == multiset(sorted) && |index| <= limit
    ensures PageAgrees(index, sorted, limit, k)
  {
    if k == 0 {
      assert Window(index, limit, 0) == index && Window(sorted, limit, 0) == sorted;
      SameTimes(index, sorted);
    } else {
      LaterPages(limit, k);
      assert Window(index, limit, k * limit) == [] && Window(sorted, limit, k * limit) == [];
    }
  }

  lemma ConstantWindow(s: seq<Record>, limit: nat, offset: nat, x: int)
    requires forall i | 0 <= i < |s| :: s[i].createdAt == x
    ensures Times(Window(s, limit, offset)) == seq(|Window(s, limit, offset)|, i => x)
  {}

  lemma SameTimePages(index: seq<Record>, sorted: seq<Record>, limit: nat, k: nat)
    requires |sorted| == |index| && Times(index) == Reverse(Times(sorted)) && Constant(Times(index)) && index != []
    ensures PageAgrees(index, sorted, limit, k)
  {
    var n, x := |index|, index[0].createdAt;
    forall i | 0 <= i < n ensures index[i].createdAt == x && sorted[i].createdAt == x {
      assert Times(index)[i] == Times(index)[0] && Times(index)[n - 1 - i] == Times(index)[0];
      assert Times(index)[n - 1 - i] == Reverse(Times(sorted))[n - 1 - i] == Times(sorted)[i];
    }
    ConstantWindow(index, limit, k * limit, x);
    ConstantWindow(sorted, limit, k * limit, x);
  }

  lemma EasyPage(index: seq<Record>, sorted: seq<Record>, limit: nat, k: nat)
    requires |sorted| == |index| && multiset(index) == multiset(sorted) && Times(index) == Reverse(Times(sorted))
    requires limit == 0 || |index| <= limit || Constant(Times(index))
    ensures PageAgrees(index, sorted, limit, k)
  {
    if |index| <= limit {
      OnePage(index, sorted, limit, k);
    } else if limit == 0 {
      assert Window(index, limit, k * limit) == [] && Window(sorted, limit, k * limit) == [];
    } else {
      SameTimePages(index, sorted, limit, k);
    }
  }

  /** For a state filter the two paths agree page by page, in the creation times shown, if
      and only if one page holds everything or all records of that state have the same
      creation time (or pages are empty): the index runs oldest first, the scan path
      newest first. */
  lemma PagesAgreeIff(index: seq<Record>, sorted: seq<Record>, limit: nat)
    requires OldestFirst(index) && NewestFirst(sorted) && multiset(index) == multiset(sorted)
    ensures (forall k: nat :: PageAgrees(index, sorted, limit, k)) <==>
            limit == 0 || |index| <= limit || Constant(Times(index))
  {
    Mirrored(index, sorted);
    if limit == 0 || |index| <= limit || Constant(Times(index)) {
      forall k: nat ensures PageAgrees(index, sorted, limit, k) { EasyPage(index, sorted, limit, k); }
    } else if forall k: nat :: PageAgrees(index, sorted, limit, k) {
      assert PageAgrees(index, sorted, limit, 0);
      assert Window(index, limit, 0) == index[..limit] && Window(sorted, limit, 0) == sorted[..limit];
      FirstPageTells(index, sorted, limit);
    }
  }

  /** Two records and pages of one: the first page is the older record on one path and the
      newer one on the other. */
  lemma PagesDiffer(older: Record, newer: Record)
    requires older.createdAt < newer.createdAt
    ensures OldestFirst([older, newer]) && NewestFirst([newer, older])
    ensures multiset([older, newer]) == multiset([newer, older])
    ensures !PageAgrees([older, newer], [newer, older], 1, 0)
  {
    assert Window([older, newer], 1, 0) == [older] && Window([newer, older], 1, 0) == [newer];
    assert Times([older]) == [older.createdAt] && Times([newer]) == [newer.createdAt];
    assert older.createdAt in multiset([older.createdAt]) && older.createdAt !in multiset([newer.createdAt]);
  }

  // ---------- over a reachable store ----------

  /** Unmarshalling: the ID and the state of a record are those of its item. */
  ghost predicate Faithful(read: (string, U.Item) -> Record) {
    forall id, item, state | I.Holds(item, "state", state) :: read(id, item).id == id && read(id, item).state == state
  }

  /** `rs` lists the jobs with the given IDs, each once. */
  ghost predicate Lists(rs: seq<Record>, jobs: map<string, U.Item>, ids: set<string>,
                        read: (string, U.Item) -> Record) {
    && (forall i, j | 0 <= i < j < |rs| :: rs[i].id != rs[j].id)
    && (forall i | 0 <= i < |rs| :: rs[i].id in ids && rs[i].id in jobs && rs[i] == read(rs[i].id, jobs[rs[i].id]))
    && (forall id | id in ids :: exists i :: 0 <= i < |rs| && rs[i].id == id)
  }

  /** What the query on the state index finds. */
  ghost function Hits(jobs: map<string, U.Item>, state: string): set<string> {
    set id | id in jobs && I.Holds(jobs[id], "GSI2PK", "STATE#" + state)
  }

  lemma {:induction false} CountListed(rs: seq<Record>, x: Record)
    requires forall i, j | 0 <= i < j < |rs| :: rs[i].id != rs[j].id
    ensures multiset(rs)[x] == if x in rs then 1 else 0
    decreases |rs|
  {
    if rs != [] {
      var n := |rs| - 1;
      CountListed(rs[..n], x);
      assert rs == rs[..n] + [rs[n]];
      if x == rs[n] {
        assert forall i | 0 <= i < n :: rs[..n][i].id != x.id;
        assert x !in rs[..n];
      }
    }
  }

  /** In every reachable store, the query finds a job iff its record has that state. */
  lemma HitsAreState(ws: seq<I.JobWrite>, state: string, id: string, read: (string, U.Item) -> Record)
    requires (forall w | w in ws :: I.Allowed(w)) && I.NoHash(state) && Faithful(read) && id in I.WriteAll(map[], ws)
    ensures var jobs := I.WriteAll(map[], ws);
            id in Hits(jobs, state) <==> read(id, jobs[id]).state == state
  {
    var jobs := I.WriteAll(map[], ws);
    I.AllIndexed(ws, id);
    I.QueriesMatchRecords(jobs[id], "", state);
    var q, s, c :| I.IndexedAs(jobs[id], q, s, c) && I.NoHash(s);
    assert I.Holds(jobs[id], "state", s) && read(id, jobs[id]).state == s;
  }

  /** So the index lists exactly the records of that state that the scan lists. */
  lemma IndexIsStateFilter(ws: seq<I.JobWrite>, state: string, records: seq<Record>, index: seq<Record>,
                           read: (string, U.Item) -> Record, x: Record)
    requires (forall w | w in ws :: I.Allowed(w)) && I.NoHash(state) && Faithful(read)
    requires Lists(records, I.WriteAll(map[], ws), I.WriteAll(map[], ws).Keys, read)
    requires Lists(index, I.WriteAll(map[], ws), Hits(I.WriteAll(map[], ws), state), read)
    ensures multiset(index)[x] == if x.state == state then multiset(records)[x] else 0
  {
    var jobs := I.WriteAll(map[], ws);
    CountListed(records, x);
    CountListed(index, x);
    if x in records {
      var i :| 0 <= i < |records| && records[i] == x;
      HitsAreState(ws, state, x.id, read);
      if x.id in Hits(jobs, state) {
        var j :| 0 <= j < |index| && index[j].id == x.id;
        assert index[j] == x;
      }
    }
    if x in index {
      var i :| 0 <= i < |index| && index[i] == x;
      HitsAreState(ws, state, x.id, read);
      var j :| 0 <= j < |records| && records[j].id == x.id;
      assert records[j] == x;
    }
  }

  /** Over a reachable store both paths report the same total and, over all pages, the
      same records. */
  lemma PathsAgree(ws: seq<I.JobWrite>, state: string, records: seq<Record>, index: seq<Record>, sorted: seq<Record>,
                   read: (string, U.Item) -> Record, limit: nat, k: nat)
    requires (forall w | w in ws :: I.Allowed(w)) && I.NoHash(state) && Faithful(read)
    requires Lists(records, I.WriteAll(map[], ws), I.WriteAll(map[], ws).Keys, read)
    requires Lists(index, I.WriteAll(map[], ws), Hits(I.WriteAll(map[], ws), state), read)
    requires state != "" && k * limit >= |index| && Arrangement(sorted, Filtered(records, Filters(state, "", "", "")))
    ensures |index| == |sorted|
    ensures multiset(Paged(index, limit, k)) == multiset(Paged(sorted, limit, k)) == multiset(index)
  {
    forall x ensures multiset(index)[x] == if x.state == state then multiset(records)[x] else 0 {
      IndexIsStateFilter(ws, state, records, index, read, x);
    }
    IndexPathAgrees(records, state, index, sorted, limit, k);
  }
}
