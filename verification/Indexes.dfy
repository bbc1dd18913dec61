/** The secondary indexes agree with the records in every reachable table. The writers of a
    record compute its index keys from its queue, state and creation time, and the queries
    compare prefixes of them; markers carry their due time in an index and in an
    attribute that the fallback scan compares. */
module Indexes {
  import opened Table
  import opened Updates

  // ---------- GSI1 and GSI2: jobs by queue and state ----------

  predicate NoHash(s: string) {
    forall i | 0 <= i < |s| :: s[i] != '#'
  }

  const INDEX_ATTRIBUTES := {"queue", "state", "created_at", "GSI1PK", "GSI1SK", "GSI2PK", "GSI2SK"}

  predicate Holds(item: Item, attr: string, s: string) {
    attr in item && item[attr] == S(s)
  }

  /** Queue, state and creation time of a record, and the index keys made of them. */
  predicate IndexedAs(item: Item, queue: string, state: string, createdAt: string) {
    && Holds(item, "queue", queue) && Holds(item, "state", state) && Holds(item, "created_at", createdAt)
    && Holds(item, "GSI1PK", "QUEUE#" + queue)
    && Holds(item, "GSI1SK", "STATE#" + state + "#" + createdAt)
    && Holds(item, "GSI2PK", "STATE#" + state)
    && Holds(item, "GSI2SK", createdAt)
  }

  ghost predicate Indexed(item: Item) {
    exists queue, state, createdAt :: IndexedAs(item, queue, state, createdAt) && NoHash(state)
  }

  /** JobToRecord's index keys beside the other attributes. */
  function NewRecord(queue: string, state: string, createdAt: string, rest: Item): Item {
    rest + map["queue" := S(queue), "state" := S(state), "created_at" := S(createdAt),
               "GSI1PK" := S("QUEUE#" + queue), "GSI1SK" := S("STATE#" + state + "#" + createdAt),
               "GSI2PK" := S("STATE#" + state), "GSI2SK" := S(createdAt)]
  }

  datatype JobWrite =
    | PutJob(id: string, queue: string, state: string, createdAt: string, rest: Item)
    | UpdateJobState(id: string, newState: string, updates: Item)

  /** States contain no '#', and callers update neither keys nor creation time. */
  predicate Allowed(w: JobWrite) {
    match w
    case PutJob(_, _, state, _, _) => NoHash(state)
    case UpdateJobState(_, newState, updates) =>
      && NoHash(newState)
      && (forall a | a in updates :: a in INDEX_ATTRIBUTES ==> a == "state")
      && ("state" in updates ==> updates["state"] == S(newState))
  }

  /** PutJob replaces the record; UpdateJobState rewrites an existing one with the
      creation time it reads from it. */
  ghost function Write(jobs: map<string, Item>, w: JobWrite): map<string, Item> {
    match w
    case PutJob(id, queue, state, createdAt, rest) => jobs[id := NewRecord(queue, state, createdAt, rest)]
    case UpdateJobState(id, newState, updates) =>
      if id in jobs && "created_at" in jobs[id] && jobs[id]["created_at"].S?
      then jobs[id := jobs[id] + updates + StateAttributes(newState, jobs[id]["created_at"].s)]
      else jobs
  }

  ghost function WriteAll(jobs: map<string, Item>, ws: seq<JobWrite>): map<string, Item> {
    if ws == [] then jobs else Write(WriteAll(jobs, ws[..|ws| - 1]), ws[|ws| - 1])
  }

  lemma NewRecordIndexed(queue: string, state: string, createdAt: string, rest: Item)
    ensures IndexedAs(NewRecord(queue, state, createdAt, rest), queue, state, createdAt)
  {
  }

  lemma UpdateIndexed(item: Item, queue: string, state: string, createdAt: string, newState: string, updates: Item)
    requires IndexedAs(item, queue, state, createdAt)
    requires forall a | a in updates :: a in INDEX_ATTRIBUTES ==> a == "state"
    ensures IndexedAs(item + updates + StateAttributes(newState, createdAt), queue, newState, createdAt)
  {
  }

  /** After any sequence of writes every record carries the index keys of its state. */
  lemma {:induction false} AllIndexed(ws: seq<JobWrite>, id: string)
    requires (forall w | w in ws :: Allowed(w)) && id in WriteAll(map[], ws)
    ensures Indexed(WriteAll(map[], ws)[id])
    decreases |ws|
  {
    var n := |ws| - 1;
    var before, w := WriteAll(map[], ws[..n]), ws[n];
    assert w in ws && forall v | v in ws[..n] :: v in ws;
    if id in before { AllIndexed(ws[..n], id); }
    if w.id == id {
      match w
      case PutJob(_, queue, state, createdAt, rest) =>
        NewRecordIndexed(queue, state, createdAt, rest);
      case UpdateJobState(_, newState, updates) =>
        var queue, state, createdAt :| IndexedAs(before[id], queue, state, createdAt) && NoHash(state);
        UpdateIndexed(before[id], queue, state, createdAt, newState, updates);
    }
  }

  /** The state in a GSI1 sort key ends at the next '#'. */
  lemma StatePrefix(s: string, t: string, createdAt: string)
    requires NoHash(s) && NoHash(t)
    ensures ("STATE#" + s + "#") <= ("STATE#" + t + "#" + createdAt) <==> s == t
  {
    var p, k := "STATE#" + s + "#", "STATE#" + t + "#" + createdAt;
    if s == t {
      assert p == k[..|p|];
    } else if p <= k {
      assert forall i | 0 <= i < |p| :: p[i] == k[i];
      assert p[6 + |s|] == '#' && k[6 + |t|] == '#';
      if |s| == |t| {
        forall i | 0 <= i < |s| ensures s[i] == t[i] { assert p[6 + i] == s[i] && k[6 + i] == t[i]; }
      }
    }
  }

  predicate QueuePrefixQuery(item: Item, queue: string, state: string) {
    && Holds(item, "GSI1PK", "QUEUE#" + queue)
    && "GSI1SK" in item && item["GSI1SK"].S? && ("STATE#" + state + "#") <= item["GSI1SK"].s
  }

  /** The GSI1 prefix query and the GSI2 query select exactly the records with that
      queue and state, and that state. */
  lemma QueriesMatchRecords(item: Item, queue: string, state: string)
    requires Indexed(item) && NoHash(state)
    ensures QueuePrefixQuery(item, queue, state) <==> Holds(item, "queue", queue) && Holds(item, "state", state)
    ensures Holds(item, "GSI2PK", "STATE#" + state) <==> Holds(item, "state", state)
  {
    var q, s, c :| IndexedAs(item, q, s, c) && NoHash(s);
    StatePrefix(state, s, c);
    if "QUEUE#" + queue == "QUEUE#" + q { Suffix("QUEUE#", queue, q); }
    if "STATE#" + state == "STATE#" + s { Suffix("STATE#", state, s); }
  }

  /** CountJobsByQueueAndState counts the records in that queue and state, and the
      state index holds the records in that state, whatever was written before. */
  lemma CountsAreRight(ws: seq<JobWrite>, queue: string, state: string)
    requires (forall w | w in ws :: Allowed(w)) && NoHash(state)
    ensures var jobs := WriteAll(map[], ws);
            && |set id | id in jobs && QueuePrefixQuery(jobs[id], queue, state)| ==
               |set id | id in jobs && Holds(jobs[id], "queue", queue) && Holds(jobs[id], "state", state)|
            && (set id | id in jobs && Holds(jobs[id], "GSI2PK", "STATE#" + state)) ==
               (set id | id in jobs && Holds(jobs[id], "state", state))
  {
    var jobs := WriteAll(map[], ws);
    forall id | id in jobs
      ensures QueuePrefixQuery(jobs[id], queue, state) <==>
              Holds(jobs[id], "queue", queue) && Holds(jobs[id], "state", state)
      ensures Holds(jobs[id], "GSI2PK", "STATE#" + state) <==> Holds(jobs[id], "state", state)
    {
      AllIndexed(ws, id);
      QueriesMatchRecords(jobs[id], queue, state);
    }
    assert (set id | id in jobs && QueuePrefixQuery(jobs[id], queue, state)) ==
           (set id | id in jobs && Holds(jobs[id], "queue", queue) && Holds(jobs[id], "state", state));
  }

  // ---------- GSI3: due jobs ----------

  /** The row that AddScheduledJob or AddRetryJob puts. */
  function Marker(id: string, at: int, retry: bool): Item {
    map["job_id" := S(id), (if retry then "retry_at_ms" else "scheduled_at_ms") := N(at),
        "GSI3PK" := S(if retry then "DUE#retry" else "DUE#scheduled"), "GSI3SK" := N(at)]
  }

  function MarkerRow(id: string, retry: bool): Row {
    if retry then RetryRow(id) else ScheduledRow(id)
  }

  datatype TableWrite =
    | AddMarker(id: string, at: int, retry: bool)
    | RemoveMarker(id: string, retry: bool)
    | PutOther(row: Row, item: Item)

  /** Other rows have no GSI3 keys. */
  predicate Ordinary(w: TableWrite) {
    w.PutOther? ==> !w.row.ScheduledRow? && !w.row.RetryRow? && "GSI3PK" !in w.item
  }

  ghost function PutRow(t: map<Row, Item>, w: TableWrite): map<Row, Item> {
    match w
    case AddMarker(id, at, retry) => t[MarkerRow(id, retry) := Marker(id, at, retry)]
    case RemoveMarker(id, retry) => t - {MarkerRow(id, retry)}
    case PutOther(row, item) => t[row := item]
  }

  ghost function PutRows(ws: seq<TableWrite>): map<Row, Item> {
    if ws == [] then map[] else PutRow(PutRows(ws[..|ws| - 1]), ws[|ws| - 1])
  }

  predicate DueNumber(item: Item, attr: string, now: int) {
    attr in item && item[attr].N? && item[attr].n <= now
  }

  /** The GSI3 query: partition `DUE#...`, sort key not after now. */
  predicate DueQuery(item: Item, retry: bool, now: int) {
    Holds(item, "GSI3PK", if retry then "DUE#retry" else "DUE#scheduled") && DueNumber(item, "GSI3SK", now)
  }

  /** The fallback scan: key prefix, sort key, due attribute not after now. */
  predicate DueScan(row: Row, item: Item, retry: bool, now: int) {
    && ScanMatches(row, if retry then "RETRY#" else "SCHEDULED#", if retry then "RETRY" else "SCHEDULED")
    && DueNumber(item, if retry then "retry_at_ms" else "scheduled_at_ms", now)
  }

  ghost predicate WellMarked(row: Row, item: Item) {
    if row.ScheduledRow? then exists at :: item == Marker(row.id, at, false)
    else if row.RetryRow? then exists at :: item == Marker(row.id, at, true)
    else "GSI3PK" !in item
  }

  lemma {:induction false} AllWellMarked(ws: seq<TableWrite>, row: Row)
    requires (forall w | w in ws :: Ordinary(w)) && row in PutRows(ws)
    ensures WellMarked(row, PutRows(ws)[row])
    decreases |ws|
  {
    var n := |ws| - 1;
    var before, w := PutRows(ws[..n]), ws[n];
    assert w in ws && forall v | v in ws[..n] :: v in ws;
    if row in before { AllWellMarked(ws[..n], row); }
    if w.AddMarker? { assert PutRows(ws)[MarkerRow(w.id, w.retry)] == Marker(w.id, w.at, w.retry); }
  }

  lemma MarkerIsDue(id: string, at: int, kind: bool, retry: bool, now: int)
    ensures DueQuery(Marker(id, at, kind), retry, now) <==> kind == retry && at <= now
    ensures kind == retry ==>
              (DueNumber(Marker(id, at, kind), if retry then "retry_at_ms" else "scheduled_at_ms", now) <==> at <= now)
    ensures Holds(Marker(id, at, kind), "job_id", id)
  {
  }

  /** In every reachable table the due query and the fallback scan select the same
      rows, and each names the job of its row. */
  lemma DueQueryIsDueScan(ws: seq<TableWrite>, row: Row, retry: bool, now: int)
    requires (forall w | w in ws :: Ordinary(w)) && row in PutRows(ws)
    ensures var item := PutRows(ws)[row];
            && (DueQuery(item, retry, now) <==> DueScan(row, item, retry, now))
            && (DueQuery(item, retry, now) ==> exists id :: row == MarkerRow(id, retry) && Holds(item, "job_id", id))
  {
    AllWellMarked(ws, row);
    ScansSelectKinds(row);
    var item := PutRows(ws)[row];
    if row.ScheduledRow? {
      var at :| item == Marker(row.id, at, false);
      MarkerIsDue(row.id, at, false, retry, now);
    } else if row.RetryRow? {
      var at :| item == Marker(row.id, at, true);
      MarkerIsDue(row.id, at, true, retry, now);
    }
  }
}
