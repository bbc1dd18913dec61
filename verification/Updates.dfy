/** The generated DynamoDB update expressions mean what the update maps say. An expression is
    built from a map by numbering placeholders for names and values in the order in which
    the map happens to be iterated, and DynamoDB evaluates it clause by clause with the
    two placeholder maps. */
module Updates {
  import opened Table

  datatype Value = S(s: string) | N(n: int) | Null

  type Item = map<string, Value>

  /** One `name = value` clause of a SET expression, by its placeholders. */
  datatype Clause = Clause(name: string, value: string)

  /** An expression with its name and value maps. */
  datatype Expression = Expression(clauses: seq<Clause>, names: map<string, string>, values: map<string, Value>)

  /** The attribute and value a clause stands for; a name that is no placeholder
      stands for itself. */
  function Resolve(x: Expression, c: Clause): (string, Value)
    requires c.value in x.values
  {
    (if c.name in x.names then x.names[c.name] else c.name, x.values[c.value])
  }

  ghost predicate Defined(x: Expression) {
    forall c | c in x.clauses :: c.value in x.values
  }

  function Assign(pairs: seq<(string, Value)>, item: Item): Item {
    if pairs == [] then item
    else Assign(pairs[..|pairs| - 1], item)[pairs[|pairs| - 1].0 := pairs[|pairs| - 1].1]
  }

  ghost function Meaning(x: Expression): seq<(string, Value)>
    requires Defined(x)
  {
    seq(|x.clauses|, i requires 0 <= i < |x.clauses| => Resolve(x, x.clauses[i]))
  }

  /** What DynamoDB does with an expression. */
  ghost function Eval(x: Expression, item: Item): Item
    requires Defined(x)
  {
    Assign(Meaning(x), item)
  }

  /** `keys` is an iteration order of the update map. */
  ghost predicate Ordering(keys: seq<string>, updates: Item) {
    && (forall i, j | 0 <= i < j < |keys| :: keys[i] != keys[j])
    && (forall k :: k in keys <==> k in updates)
  }

  ghost function Pairs(keys: seq<string>, updates: Item): seq<(string, Value)>
    requires forall k | k in keys :: k in updates
  {
    seq(|keys|, i requires 0 <= i < |keys| => (keys[i], updates[keys[i]]))
  }

  // ---------- assignments ----------

  lemma {:induction false} AssignElsewhere(pairs: seq<(string, Value)>, item: Item, key: string)
    requires forall i | 0 <= i < |pairs| :: pairs[i].0 != key
    ensures key in Assign(pairs, item) <==> key in item
    ensures key in item ==> Assign(pairs, item)[key] == item[key]
    decreases |pairs|
  {
    if pairs != [] { AssignElsewhere(pairs[..|pairs| - 1], item, key); }
  }

  lemma {:induction false} AssignHere(pairs: seq<(string, Value)>, item: Item, i: nat)
    requires i < |pairs| && forall j | i < j < |pairs| :: pairs[j].0 != pairs[i].0
    ensures pairs[i].0 in Assign(pairs, item) && Assign(pairs, item)[pairs[i].0] == pairs[i].1
    decreases |pairs|
  {
    if i < |pairs| - 1 { AssignHere(pairs[..|pairs| - 1], item, i); }
  }

  lemma {:induction false} AssignConcat(a: seq<(string, Value)>, b: seq<(string, Value)>, item: Item)
    ensures Assign(a + b, item) == Assign(b, Assign(a, item))
    decreases |b|
  {
    if b == [] {
      assert a + b == a;
    } else {
      var n := |b| - 1;
      assert (a + b)[..|a + b| - 1] == a + b[..n] && (a + b)[|a + b| - 1] == b[n];
      AssignConcat(a, b[..n], item);
    }
  }

  /** In any iteration order the assignments overwrite exactly the updated attributes. */
  lemma AssignPairs(keys: seq<string>, updates: Item, item: Item)
    requires Ordering(keys, updates)
    ensures Assign(Pairs(keys, updates), item) == item + updates
  {
    var ps := Pairs(keys, updates);
    var r := Assign(ps, item);
    forall key ensures (key in r <==> key in item + updates) && (key in r ==> r[key] == (item + updates)[key]) {
      if key in updates {
        assert key in keys;
        var i :| 0 <= i < |keys| && keys[i] == key;
        AssignHere(ps, item, i);
        assert ps[i].0 == key;
      } else {
        forall i | 0 <= i < |ps| ensures ps[i].0 != key { assert keys[i] in keys; }
        AssignElsewhere(ps, item, key);
      }
    }
  }

  // ---------- placeholders ----------

  function AttrName(n: nat): string { "#attr" + Decimal(n) }
  function ValName(n: nat): string { ":val" + Decimal(n) }

  lemma NumberedNames(a: nat, b: nat)
    requires a != b
    ensures AttrName(a) != AttrName(b) && ValName(a) != ValName(b)
  {
    if AttrName(a) == AttrName(b) {
      Suffix("#attr", Decimal(a), Decimal(b));
      DecimalInjective(a, b);
    }
    if ValName(a) == ValName(b) {
      Suffix(":val", Decimal(a), Decimal(b));
      DecimalInjective(a, b);
    }
  }

  /** Placeholder number `n` stands for `key` and `value`. */
  ghost predicate Bound(names: map<string, string>, values: map<string, Value>, n: nat, key: string, value: Value) {
    AttrName(n) in names && names[AttrName(n)] == key && ValName(n) in values && values[ValName(n)] == value
  }

  function Numbered(base: nat, k: nat): seq<Clause> {
    seq(k, i requires 0 <= i < k => Clause(AttrName(base + i), ValName(base + i)))
  }

  /** All placeholder numbers in use are below `n`. */
  ghost predicate Below(names: map<string, string>, values: map<string, Value>, n: nat) {
    forall m: nat | m >= n :: AttrName(m) !in names && ValName(m) !in values
  }

  lemma BindNext(names: map<string, string>, values: map<string, Value>, n: nat, key: string, value: Value)
    requires Below(names, values, n)
    ensures var names', values' := names[AttrName(n) := key], values[ValName(n) := value];
            && |names'| == |names| + 1 && |values'| == |values| + 1
            && Below(names', values', n + 1) && Bound(names', values', n, key, value)
            && forall m: nat, k, v | m < n && Bound(names, values, m, k, v) :: Bound(names', values', m, k, v)
  {
    forall m: nat | m != n ensures AttrName(m) != AttrName(n) && ValName(m) != ValName(n) { NumberedNames(m, n); }
  }

  /** The first `k` keys have placeholders numbered from `base`. */
  ghost predicate AllBound(x: Expression, base: nat, keys: seq<string>, updates: Item, k: nat)
    requires k <= |keys| && forall key | key in keys :: key in updates
  {
    forall i | 0 <= i < k :: Bound(x.names, x.values, base + i, keys[i], updates[keys[i]])
  }

  /** `x` keeps the entries of `before` and adds numbered placeholders only. */
  ghost predicate Extends(before: Expression, x: Expression) {
    && (forall n | n in before.names :: n in x.names && x.names[n] == before.names[n])
    && (forall n | n in before.values :: n in x.values && x.values[n] == before.values[n])
    && (forall n | n in x.names && n !in before.names :: "#attr" <= n)
  }

  /** One more clause. */
  function AddClause(x: Expression, n: nat, key: string, value: Value): Expression {
    Expression(x.clauses + [Clause(AttrName(n), ValName(n))],
               x.names[AttrName(n) := key], x.values[ValName(n) := value])
  }

  lemma AddClauseBinds(x: Expression, base: nat, keys: seq<string>, updates: Item, k: nat)
    requires k < |keys| && (forall key | key in keys :: key in updates)
    requires Below(x.names, x.values, base + k) && AllBound(x, base, keys, updates, k)
    ensures var x' := AddClause(x, base + k, keys[k], updates[keys[k]]);
            && AllBound(x', base, keys, updates, k + 1) && Below(x'.names, x'.values, base + k + 1)
            && |x'.names| == |x.names| + 1 && |x'.values| == |x.values| + 1
  {
    BindNext(x.names, x.values, base + k, keys[k], updates[keys[k]]);
  }

  lemma NumberedSnoc(before: seq<Clause>, base: nat, k: nat)
    ensures before + Numbered(base, 0) == before
    ensures before + Numbered(base, k + 1) ==
            before + Numbered(base, k) + [Clause(AttrName(base + k), ValName(base + k))]
  {
    assert Numbered(base, k + 1) == Numbered(base, k) + [Clause(AttrName(base + k), ValName(base + k))];
  }

  /** `x` is `before` with clauses for the first `k` keys. */
  ghost predicate Appended(before: Expression, x: Expression, base: nat, keys: seq<string>, updates: Item, k: nat)
    requires k <= |keys| && forall key | key in keys :: key in updates
  {
    && |x.names| == |x.values| == base + k && Below(x.names, x.values, base + k)
    && x.clauses == before.clauses + Numbered(base, k)
    && AllBound(x, base, keys, updates, k) && Extends(before, x)
  }

  lemma AppendOne(before: Expression, x: Expression, base: nat, keys: seq<string>, updates: Item, k: nat)
    requires k < |keys| && (forall key | key in keys :: key in updates) && Appended(before, x, base, keys, updates, k)
    ensures Appended(before, AddClause(x, |x.names|, keys[k], updates[keys[k]]), base, keys, updates, k + 1)
  {
    NumberedSnoc(before.clauses, base, k);
    AddClauseBinds(x, base, keys, updates, k);
  }

  /** The loop shared by UpdateJobState and UpdateWorkflow: it appends one clause per
      key, numbered by the sizes of the two maps. */
  method AppendClauses(updates: Item, keys: seq<string>, before: Expression, ghost base: nat) returns (x: Expression)
    requires Ordering(keys, updates)
    requires |before.names| == |before.values| == base && Below(before.names, before.values, base)
    ensures x.clauses == before.clauses + Numbered(base, |keys|)
    ensures AllBound(x, base, keys, updates, |keys|) && Extends(before, x)
  {
    x := before;
    NumberedSnoc(before.clauses, base, 0);
    for k := 0 to |keys|
      invariant Appended(before, x, base, keys, updates, k)
    {
      AppendOne(before, x, base, keys, updates, k);
      var attrName, placeholder := AttrName(|x.names|), ValName(|x.values|);
      x := Expression(x.clauses + [Clause(attrName, placeholder)],
                      x.names[attrName := keys[k]], x.values[placeholder := updates[keys[k]]]);
    }
  }

  ghost predicate DistinctPlaceholders(x: Expression) {
    forall i, j | 0 <= i < j < |x.clauses| ::
      x.clauses[i].name != x.clauses[j].name && x.clauses[i].value != x.clauses[j].value
  }

  lemma NumberedDistinct(x: Expression, base: nat, k: nat)
    requires x.clauses == Numbered(base, k)
    ensures DistinctPlaceholders(x)
  {
    forall i, j | 0 <= i < j < |x.clauses|
      ensures x.clauses[i].name != x.clauses[j].name && x.clauses[i].value != x.clauses[j].value
    {
      assert x.clauses[i] == Clause(AttrName(base + i), ValName(base + i));
      assert x.clauses[j] == Clause(AttrName(base + j), ValName(base + j));
      NumberedNames(base + i, base + j);
    }
  }

  lemma NumberedMeaning(x: Expression, base: nat, keys: seq<string>, updates: Item)
    requires Ordering(keys, updates) && x.clauses == Numbered(base, |keys|)
    requires AllBound(x, base, keys, updates, |keys|)
    ensures Defined(x) && Meaning(x) == Pairs(keys, updates)
  {
    forall i | 0 <= i < |keys|
      ensures x.clauses[i].value in x.values && Resolve(x, x.clauses[i]) == (keys[i], updates[keys[i]])
    {
      assert x.clauses[i] == Clause(AttrName(base + i), ValName(base + i));
      assert Bound(x.names, x.values, base + i, keys[i], updates[keys[i]]);
    }
  }

  /** UpdateWorkflow: for every update map and iteration order the expression
      overwrites exactly the given attributes. */
  method BuildWorkflowUpdate(updates: Item, keys: seq<string>) returns (x: Expression)
    requires Ordering(keys, updates)
    ensures Defined(x) && DistinctPlaceholders(x)
    ensures forall item :: Eval(x, item) == item + updates
  {
    x := AppendClauses(updates, keys, Expression([], map[], map[]), 0);
    assert x.clauses == Numbered(0, |keys|);
    NumberedMeaning(x, 0, keys, updates);
    NumberedDistinct(x, 0, |keys|);
    forall item ensures Eval(x, item) == item + updates { AssignPairs(keys, updates, item); }
  }

  // ---------- UpdateJobState ----------

  /** The attributes UpdateJobState derives from the new state. */
  function StateAttributes(newState: string, createdAt: string): Item {
    map["state" := S(newState), "GSI1SK" := S("STATE#" + newState + "#" + createdAt),
        "GSI2PK" := S("STATE#" + newState)]
  }

  const STATE_CLAUSE := Clause("#state", ":state")
  const GSI1_CLAUSE := Clause("GSI1SK", ":gsi1sk")
  const GSI2_CLAUSE := Clause("GSI2PK", ":gsi2pk")

  lemma PlaceholderShapes(n: nat)
    ensures AttrName(n) != "#state" && AttrName(n) != "GSI1SK" && AttrName(n) != "GSI2PK"
    ensures ValName(n) != ":state" && ValName(n) != ":gsi1sk" && ValName(n) != ":gsi2pk"
    ensures "#state" != "GSI1SK" && "GSI1SK" != "GSI2PK" && "GSI2PK" != "#state"
    ensures ":state" != ":gsi1sk" && ":gsi1sk" != ":gsi2pk" && ":gsi2pk" != ":state"
  {
    assert AttrName(n)[1] == 'a' && "#state"[1] == 's' && "GSI1SK"[1] == 'S' && "GSI2PK"[1] == 'S';
    assert ValName(n)[1] == 'v' && ":state"[1] == 's' && ":gsi1sk"[1] == 'g' && ":gsi2pk"[1] == 'g';
    assert "GSI1SK"[3] == '1' && "GSI2PK"[3] == '2' && ":gsi1sk"[4] == '1' && ":gsi2pk"[4] == '2';
    assert "GSI1SK"[0] == 'G' && "GSI2PK"[0] == 'G' && "#state"[0] == '#';
  }

  /** A clause whose placeholders are not numbered ones. */
  ghost predicate Named(c: Clause) {
    forall n: nat :: AttrName(n) != c.name && ValName(n) != c.value
  }

  ghost predicate Apart(c: Clause, d: Clause) {
    c.name != d.name && c.value != d.value
  }

  /** Numbered clauses between named ones. */
  function Framed(c0: Clause, n: nat, c1: Clause, c2: Clause): seq<Clause> {
    [c0] + Numbered(1, n) + [c1, c2]
  }

  lemma FramedAt(c0: Clause, n: nat, c1: Clause, c2: Clause, i: nat)
    requires i < n + 3
    ensures |Framed(c0, n, c1, c2)| == n + 3
    ensures Framed(c0, n, c1, c2)[i] ==
            if i == 0 then c0 else if i <= n then Clause(AttrName(i), ValName(i)) else if i == n + 1 then c1 else c2
  {}

  lemma FramedDistinct(x: Expression, c0: Clause, n: nat, c1: Clause, c2: Clause)
    requires x.clauses == Framed(c0, n, c1, c2) && Named(c0) && Named(c1) && Named(c2)
    requires Apart(c0, c1) && Apart(c1, c2) && Apart(c0, c2)
    ensures DistinctPlaceholders(x)
  {
    FramedAt(c0, n, c1, c2, 0);
    forall i, j | 0 <= i < j < |x.clauses|
      ensures x.clauses[i].name != x.clauses[j].name && x.clauses[i].value != x.clauses[j].value
    {
      FramedAt(c0, n, c1, c2, i);
      FramedAt(c0, n, c1, c2, j);
      NumberedNames(i, j);
    }
  }

  lemma FramedMeaning(x: Expression, c0: Clause, keys: seq<string>, updates: Item, c1: Clause, c2: Clause)
    requires Ordering(keys, updates) && x.clauses == Framed(c0, |keys|, c1, c2)
    requires AllBound(x, 1, keys, updates, |keys|)
    requires c0.value in x.values && c1.value in x.values && c2.value in x.values
    ensures Defined(x)
    ensures Meaning(x) == [Resolve(x, c0)] + Pairs(keys, updates) + [Resolve(x, c1), Resolve(x, c2)]
  {
    FramedAt(c0, |keys|, c1, c2, 0);
    forall i | 0 <= i < |x.clauses|
      ensures x.clauses[i].value in x.values
      ensures Resolve(x, x.clauses[i]) ==
              ([Resolve(x, c0)] + Pairs(keys, updates) + [Resolve(x, c1), Resolve(x, c2)])[i]
    {
      FramedAt(c0, |keys|, c1, c2, i);
      if 1 <= i <= |keys| { assert Bound(x.names, x.values, 1 + (i - 1), keys[i - 1], updates[keys[i - 1]]); }
    }
  }

  lemma Overwrites(k0: string, v0: Value, k1: string, v1: Value, k2: string, v2: Value, updates: Item, item: Item)
    requires k1 !in updates && k2 !in updates && k0 != k1 && k0 != k2 && k1 != k2
    requires k0 in updates ==> updates[k0] == v0
    ensures (item[k0 := v0] + updates)[k1 := v1][k2 := v2] == item + updates + map[k0 := v0, k1 := v1, k2 := v2]
  {}

  lemma AssignTwo(p1: (string, Value), p2: (string, Value), item: Item)
    ensures Assign([p1], item) == item[p1.0 := p1.1]
    ensures Assign([p1, p2], item) == item[p1.0 := p1.1][p2.0 := p2.1]
  {
    assert [p1, p2][..1] == [p1];
    assert Assign([p1], item) == item[p1.0 := p1.1];
  }

  lemma FramedEval(p0: (string, Value), keys: seq<string>, updates: Item, p1: (string, Value), p2: (string, Value),
                   item: Item)
    requires Ordering(keys, updates) && p1.0 !in updates && p2.0 !in updates
    requires p0.0 != p1.0 && p0.0 != p2.0 && p1.0 != p2.0
    requires p0.0 in updates ==> updates[p0.0] == p0.1
    ensures Assign([p0] + Pairs(keys, updates) + [p1, p2], item)
            == item + updates + map[p0.0 := p0.1, p1.0 := p1.1, p2.0 := p2.1]
  {
    var ps := Pairs(keys, updates);
    AssignConcat([p0] + ps, [p1, p2], item);
    AssignConcat([p0], ps, item);
    AssignTwo(p0, p0, item);
    AssignPairs(keys, updates, item[p0.0 := p0.1]);
    AssignTwo(p1, p2, item[p0.0 := p0.1] + updates);
    Overwrites(p0.0, p0.1, p1.0, p1.1, p2.0, p2.1, updates, item);
  }

  lemma JobUpdateMeaning(x: Expression, newState: string, createdAt: string, updates: Item, keys: seq<string>)
    requires Ordering(keys, updates) && "GSI1SK" !in updates && "GSI2PK" !in updates
    requires "state" in updates ==> updates["state"] == S(newState)
    requires x.clauses == Framed(STATE_CLAUSE, |keys|, GSI1_CLAUSE, GSI2_CLAUSE)
    requires AllBound(x, 1, keys, updates, |keys|)
    requires STATE_CLAUSE.value in x.values && Resolve(x, STATE_CLAUSE) == ("state", S(newState))
    requires GSI1_CLAUSE.value in x.values
    requires Resolve(x, GSI1_CLAUSE) == ("GSI1SK", S("STATE#" + newState + "#" + createdAt))
    requires GSI2_CLAUSE.value in x.values && Resolve(x, GSI2_CLAUSE) == ("GSI2PK", S("STATE#" + newState))
    ensures Defined(x) && DistinctPlaceholders(x)
    ensures forall item :: Eval(x, item) == item + updates + StateAttributes(newState, createdAt)
  {
    PlaceholderShapes(0);
    forall n: nat
      ensures AttrName(n) !in {"#state", "GSI1SK", "GSI2PK"} && ValName(n) !in {":state", ":gsi1sk", ":gsi2pk"}
    {
      PlaceholderShapes(n);
    }
    FramedDistinct(x, STATE_CLAUSE, |keys|, GSI1_CLAUSE, GSI2_CLAUSE);
    FramedMeaning(x, STATE_CLAUSE, keys, updates, GSI1_CLAUSE, GSI2_CLAUSE);
    forall item ensures Eval(x, item) == item + updates + StateAttributes(newState, createdAt) {
      FramedEval(Resolve(x, STATE_CLAUSE), keys, updates, Resolve(x, GSI1_CLAUSE), Resolve(x, GSI2_CLAUSE), item);
    }
  }

  /** UpdateJobState: for every update map and iteration order the expression
      overwrites the given attributes and the derived ones, and nothing else. `state`
      is assigned twice when the caller passes it too, to the same value. */
  method BuildJobUpdate(newState: string, createdAt: string, updates: Item, keys: seq<string>) returns (x: Expression)
    requires Ordering(keys, updates) && "GSI1SK" !in updates && "GSI2PK" !in updates
    requires "state" in updates ==> updates["state"] == S(newState)
    ensures Defined(x) && DistinctPlaceholders(x)
    ensures forall item :: Eval(x, item) == item + updates + StateAttributes(newState, createdAt)
  {
    var start := Expression([STATE_CLAUSE], map["#state" := "state"], map[":state" := S(newState)]);
    forall m: nat ensures AttrName(m) !in start.names && ValName(m) !in start.values { PlaceholderShapes(m); }
    var y := AppendClauses(updates, keys, start, 1);
    assert "GSI1SK" !in y.names && "GSI2PK" !in y.names by {
      assert "GSI1SK"[0] == 'G' && "GSI2PK"[0] == 'G';
      PlaceholderShapes(0);
    }
    assert "#state" in start.names && ":state" in start.values;
    var values := y.values[":gsi1sk" := S("STATE#" + newState + "#" + createdAt)][":gsi2pk" := S("STATE#" + newState)];
    x := Expression(y.clauses + [GSI1_CLAUSE, GSI2_CLAUSE], y.names, values);
    KeepsBound(y, x, keys, updates);
    PlaceholderShapes(0);
    JobUpdateMeaning(x, newState, createdAt, updates, keys);
  }

  lemma KeepsBound(y: Expression, x: Expression, keys: seq<string>, updates: Item)
    requires (forall key | key in keys :: key in updates) && AllBound(y, 1, keys, updates, |keys|) && x.names == y.names
    requires forall v | v in y.values && v != ":gsi1sk" && v != ":gsi2pk" :: v in x.values && x.values[v] == y.values[v]
    ensures AllBound(x, 1, keys, updates, |keys|)
  {
    forall i | 0 <= i < |keys| ensures Bound(x.names, x.values, 1 + i, keys[i], updates[keys[i]]) {
      assert Bound(y.names, y.values, 1 + i, keys[i], updates[keys[i]]);
      PlaceholderShapes(1 + i);
    }
  }
}
