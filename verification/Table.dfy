/** The single DynamoDB table. Records, markers, locks and results of all kinds are rows of it,
    told apart by their (PK, SK) strings, into which IDs and names of any form are copied.
    The lemmas say that the strings are distinct and what the prefix queries and scans
    select, so that the table is as good as one map per kind. */
module Table {

  /** The rows of the table, by kind. */
  datatype Row =
    | JobRow(id: string)
    | WorkflowRow(id: string)
    | CronRow(name: string)
    | UniqueRow(fingerprint: string)
    | QueueRow(name: string)
    | DeadLetterRow(id: string)
    | WorkerRow(id: string)
    | ScheduledRow(id: string)
    | RetryRow(id: string)
    | WorkflowJobRow(workflow: string, id: string)
    | WorkflowResultRow(workflow: string, step: int)
    | CronInstanceRow(name: string)
    | CronLockRow(name: string, timestamp: int)

  type Key = (string, string)

  function Digit(d: nat): char
    requires d < 10
  {
    "0123456789"[d]
  }

  function Digits(n: nat): string {
    if n < 10 then [Digit(n)] else Digits(n / 10) + [Digit(n % 10)]
  }

  /** Decimal notation, as strconv writes it. */
  function Decimal(n: int): string {
    if n < 0 then "-" + Digits(-n) else Digits(n)
  }

  function PartitionKey(r: Row): string {
    match r
    case JobRow(id) => id
    case WorkflowRow(id) => id
    case CronRow(name) => "CRON#" + name
    case UniqueRow(fp) => "UNIQUE#" + fp
    case QueueRow(name) => "QUEUE#" + name
    case DeadLetterRow(id) => "DLQ#" + id
    case WorkerRow(id) => "WORKER#" + id
    case ScheduledRow(id) => "SCHEDULED#" + id
    case RetryRow(id) => "RETRY#" + id
    case WorkflowJobRow(wf, _) => wf
    case WorkflowResultRow(wf, _) => wf
    case CronInstanceRow(name) => "CRON_INSTANCE#" + name
    case CronLockRow(name, ts) => "CRON_LOCK#" + name + "#" + Decimal(ts)
  }

  function SortKey(r: Row): string {
    match r
    case JobRow(_) => "JOB"
    case WorkflowRow(_) => "WORKFLOW"
    case CronRow(_) => "CRON"
    case UniqueRow(_) => "UNIQUE"
    case QueueRow(_) => "META"
    case DeadLetterRow(_) => "DLQ"
    case WorkerRow(_) => "WORKER"
    case ScheduledRow(_) => "SCHEDULED"
    case RetryRow(_) => "RETRY"
    case WorkflowJobRow(_, id) => "JOB#" + id
    case WorkflowResultRow(_, step) => "RESULT#" + Decimal(step)
    case CronInstanceRow(_) => "INSTANCE"
    case CronLockRow(_, _) => "LOCK"
  }

  function Encode(r: Row): Key {
    (PartitionKey(r), SortKey(r))
  }

  // ---------- decimal notation ----------

  lemma {:induction false} DigitsInjective(a: nat, b: nat)
    requires Digits(a) == Digits(b)
    ensures a == b
  {
    var s, t := Digits(a), Digits(b);
    assert s[|s| - 1] == Digit(a % 10) && t[|t| - 1] == Digit(b % 10);
    if a >= 10 && b >= 10 {
      assert s[..|s| - 1] == Digits(a / 10) && t[..|t| - 1] == Digits(b / 10);
      DigitsInjective(a / 10, b / 10);
    }
  }

  lemma {:induction false} DigitsAreDigits(n: nat, i: nat)
    requires i < |Digits(n)|
    ensures '0' <= Digits(n)[i] <= '9'
  {
    if n >= 10 && i < |Digits(n / 10)| { DigitsAreDigits(n / 10, i); }
  }

  lemma DecimalInjective(a: int, b: int)
    requires Decimal(a) == Decimal(b)
    ensures a == b
  {
    if a >= 0 { DigitsAreDigits(a, 0); }
    if b >= 0 { DigitsAreDigits(b, 0); }
    if a < 0 && b < 0 {
      assert Decimal(a)[1..] == Digits(-a) && Decimal(b)[1..] == Digits(-b);
      DigitsInjective(-a, -b);
    } else if a >= 0 && b >= 0 {
      DigitsInjective(a, b);
    }
  }

  lemma DecimalHasNoHash(n: int, i: nat)
    requires i < |Decimal(n)|
    ensures Decimal(n)[i] != '#'
  {
    if n >= 0 { DigitsAreDigits(n, i); } else if i > 0 { DigitsAreDigits(-n, i - 1); }
  }

  // ---------- keys ----------

  lemma Suffix(p: string, a: string, b: string)
    requires p + a == p + b
    ensures a == b
  {
    assert (p + a)[|p|..] == a && (p + b)[|p|..] == b;
  }

  /** The last '#' separates a lock's cron name from its timestamp, whatever the name. */
  lemma LockKeyInjective(n1: string, t1: int, n2: string, t2: int)
    requires n1 + "#" + Decimal(t1) == n2 + "#" + Decimal(t2)
    ensures n1 == n2 && t1 == t2
  {
    var s1, s2 := n1 + "#" + Decimal(t1), n2 + "#" + Decimal(t2);
    if |n1| < |n2| {
      assert s1[|n2|] == Decimal(t1)[|n2| - |n1| - 1] && s2[|n2|] == '#';
      DecimalHasNoHash(t1, |n2| - |n1| - 1);
    } else if |n2| < |n1| {
      assert s2[|n1|] == Decimal(t2)[|n1| - |n2| - 1] && s1[|n1|] == '#';
      DecimalHasNoHash(t2, |n1| - |n2| - 1);
    }
    assert s1[..|n1|] == n1 && s2[..|n2|] == n2;
    assert s1[|n1| + 1..] == Decimal(t1) && s2[|n2| + 1..] == Decimal(t2);
    DecimalInjective(t1, t2);
  }

  lemma LockRowInjective(n1: string, t1: int, n2: string, t2: int)
    requires PartitionKey(CronLockRow(n1, t1)) == PartitionKey(CronLockRow(n2, t2))
    ensures n1 == n2 && t1 == t2
  {
    assert PartitionKey(CronLockRow(n1, t1)) == "CRON_LOCK#" + (n1 + "#" + Decimal(t1));
    assert PartitionKey(CronLockRow(n2, t2)) == "CRON_LOCK#" + (n2 + "#" + Decimal(t2));
    Suffix("CRON_LOCK#", n1 + "#" + Decimal(t1), n2 + "#" + Decimal(t2));
    LockKeyInjective(n1, t1, n2, t2);
  }

  /** A number per kind, read off the sort key alone. */
  function KindOf(r: Row): nat {
    match r
    case JobRow(_) => 0 case WorkflowRow(_) => 1 case CronRow(_) => 2 case UniqueRow(_) => 3
    case QueueRow(_) => 4 case DeadLetterRow(_) => 5 case WorkerRow(_) => 6 case ScheduledRow(_) => 7
    case RetryRow(_) => 8 case WorkflowJobRow(_, _) => 9 case WorkflowResultRow(_, _) => 10
    case CronInstanceRow(_) => 11 case CronLockRow(_, _) => 12
  }

  function SortKind(sk: string): nat {
    if "JOB#" <= sk then 9 else if "RESULT#" <= sk then 10
    else if sk == "JOB" then 0 else if sk == "WORKFLOW" then 1 else if sk == "CRON" then 2 else if sk == "UNIQUE" then 3
    else if sk == "META" then 4 else if sk == "DLQ" then 5 else if sk == "WORKER" then 6
    else if sk == "SCHEDULED" then 7
    else if sk == "RETRY" then 8 else if sk == "INSTANCE" then 11 else 12
  }

  lemma FixedSortKeys()
    ensures SortKind("JOB") == 0 && SortKind("WORKFLOW") == 1 && SortKind("CRON") == 2 && SortKind("UNIQUE") == 3
    ensures SortKind("META") == 4 && SortKind("DLQ") == 5 && SortKind("WORKER") == 6 && SortKind("SCHEDULED") == 7
    ensures SortKind("RETRY") == 8 && SortKind("INSTANCE") == 11 && SortKind("LOCK") == 12
  {
    assert "JOB"[0] == 'J' && "WORKFLOW"[0] == 'W' && "CRON"[0] == 'C' && "UNIQUE"[0] == 'U' && "META"[0] == 'M';
    assert "DLQ"[0] == 'D' && "WORKER"[0] == 'W' && "SCHEDULED"[0] == 'S' && "RETRY"[0] == 'R';
    assert "INSTANCE"[0] == 'I' && "LOCK"[0] == 'L' && "JOB#"[0] == 'J' && "RESULT#"[0] == 'R';
  }

  lemma SortKeyTellsKind(r: Row)
    ensures SortKind(SortKey(r)) == KindOf(r)
  {
    FixedSortKeys();
    if r.WorkflowResultRow? { assert SortKey(r)[0] == 'R'; }
  }

  lemma SameKindInjective(a: Row, b: Row)
    requires KindOf(a) == KindOf(b) && Encode(a) == Encode(b)
    ensures a == b
  {
    match a
    case JobRow(_) =>
    case WorkflowRow(_) =>
    case CronRow(n) => Suffix("CRON#", n, b.name);
    case UniqueRow(n) => Suffix("UNIQUE#", n, b.fingerprint);
    case QueueRow(n) => Suffix("QUEUE#", n, b.name);
    case DeadLetterRow(n) => Suffix("DLQ#", n, b.id);
    case WorkerRow(n) => Suffix("WORKER#", n, b.id);
    case ScheduledRow(n) => Suffix("SCHEDULED#", n, b.id);
    case RetryRow(n) => Suffix("RETRY#", n, b.id);
    case WorkflowJobRow(_, n) => Suffix("JOB#", n, b.id);
    case WorkflowResultRow(_, k) =>
      Suffix("RESULT#", Decimal(k), Decimal(b.step));
      DecimalInjective(k, b.step);
    case CronInstanceRow(n) => Suffix("CRON_INSTANCE#", n, b.name);
    case CronLockRow(n, t) => LockRowInjective(n, t, b.name, b.timestamp);
  }

  /** Distinct rows have distinct keys, for arbitrary IDs and names. */
  lemma EncodeInjective(a: Row, b: Row)
    requires Encode(a) == Encode(b)
    ensures a == b
  {
    SortKeyTellsKind(a);
    SortKeyTellsKind(b);
    SameKindInjective(a, b);
  }

  /** The table as separate maps: writing one row changes no other row of any kind. */
  lemma RowsAreSeparate<Item>(t: map<Key, Item>, a: Row, b: Row, item: Item)
    ensures var t' := t[Encode(a) := item];
            && (Encode(b) in t' <==> b == a || Encode(b) in t)
            && (b != a && Encode(b) in t ==> t'[Encode(b)] == t[Encode(b)])
    ensures var t' := t - {Encode(a)};
            (Encode(b) in t' <==> b != a && Encode(b) in t) && (Encode(b) in t' ==> t'[Encode(b)] == t[Encode(b)])
  {
    if Encode(a) == Encode(b) { EncodeInjective(a, b); }
  }

  // ---------- scans and prefix queries ----------

  predicate ScanMatches(r: Row, prefix: string, sk: string) {
    prefix <= PartitionKey(r) && SortKey(r) == sk
  }

  predicate QueryMatches(r: Row, pk: string, skPrefix: string) {
    PartitionKey(r) == pk && skPrefix <= SortKey(r)
  }

  /** The scans select exactly the rows of one kind ... */
  lemma ScansSelectKinds(r: Row)
    ensures ScanMatches(r, "QUEUE#", "META") <==> r.QueueRow?
    ensures ScanMatches(r, "CRON#", "CRON") <==> r.CronRow?
    ensures ScanMatches(r, "SCHEDULED#", "SCHEDULED") <==> r.ScheduledRow?
    ensures ScanMatches(r, "RETRY#", "RETRY") <==> r.RetryRow?
    ensures ScanMatches(r, "", "JOB") <==> r.JobRow?
  {
    SortKeyTellsKind(r);
    FixedSortKeys();
  }

  /** ... and the partition queries exactly the jobs and results of one workflow. */
  lemma QueriesSelectKinds(r: Row, wf: string)
    ensures QueryMatches(r, wf, "JOB#") <==> r.WorkflowJobRow? && r.workflow == wf
    ensures QueryMatches(r, wf, "RESULT#") <==> r.WorkflowResultRow? && r.workflow == wf
  {
    SortKeyTellsKind(r);
    if "RESULT#" <= SortKey(r) { assert SortKey(r)[0] == 'R'; }
  }
}
