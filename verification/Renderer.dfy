/** Rewriting the query of the local stage: tables become scan outputs, columns are rebound to aliases. */
module Renderer {
  import opened Prelude
  import opened Sql

  // Names are compared after `.strip().lower()`, which is any function here.
  type Norm = string -> string

  /** The names one table occurrence goes by. */
  function KeysOf(norm: Norm, t: FromItem): seq<string> {
    [norm(t.alias), norm(t.name)]
    + (if t.db != "" && t.name != "" then [norm(t.db + "." + t.name)] else [])
    + (if t.catalog != "" && t.db != "" && t.name != "" then [norm(t.catalog + "." + t.db + "." + t.name)] else [])
  }

  /** The aliases of the tables that go by `key`. */
  function Candidates(norm: Norm, items: seq<FromItem>, key: string): set<string> {
    set t | t in items && t.alias != "" && key in KeysOf(norm, t) :: t.alias
  }

  /** A key names an alias when exactly one alias goes by it. */
  ghost predicate Resolves(norm: Norm, items: seq<FromItem>, key: string, a: string) {
    key != "" && Candidates(norm, items, key) == {a}
  }

  /** `candidate_aliases.setdefault(key, set()).add(alias)` for every name of one table. */
  method AddKeys(found: map<string, set<string>>, keys: seq<string>, a: string) returns (r: map<string, set<string>>)
    requires "" !in found
    ensures r.Keys == found.Keys + set k | k in keys && k != ""
    ensures forall k | k in r ::
      r[k] == (if k in found then found[k] else {}) + (if k in keys then {a} else {})
  {
    r := found;
    for i := 0 to |keys|
      invariant r.Keys == found.Keys + set k | k in keys[..i] && k != ""
      invariant forall k | k in r ::
        r[k] == (if k in found then found[k] else {}) + (if k in keys[..i] then {a} else {})
    {
      assert keys[..i + 1] == keys[..i] + [keys[i]];
      if keys[i] != "" {
        r := r[keys[i] := (if keys[i] in r then r[keys[i]] else {}) + {a}];
      }
    }
    assert keys[..|keys|] == keys;
  }

  lemma {:induction false} CandidatesOneMore(norm: Norm, items: seq<FromItem>, t: FromItem, key: string)
    ensures Candidates(norm, items + [t], key) ==
      Candidates(norm, items, key) + if t.alias != "" && key in KeysOf(norm, t) then {t.alias} else {}
  {
  }

  /** The aliases found so far for every key. */
  ghost predicate Collected(norm: Norm, items: seq<FromItem>, found: map<string, set<string>>) {
    && (forall k :: k in found <==> k != "" && Candidates(norm, items, k) != {})
    && (forall k | k in found :: found[k] == Candidates(norm, items, k))
  }

  function Uniques(found: map<string, set<string>>): map<string, string> {
    map k | k in found && |found[k]| == 1 :: Single(found[k])
  }

  /** A map from every key that names exactly one alias to that alias. */
  ghost predicate IsLookup(norm: Norm, items: seq<FromItem>, lookup: map<string, string>) {
    && (forall k :: k in lookup <==> exists a :: Resolves(norm, items, k, a))
    && (forall k | k in lookup :: Resolves(norm, items, k, lookup[k]))
  }

  lemma {:induction false} LookupIsUnique(
    norm: Norm, items: seq<FromItem>, x: map<string, string>, y: map<string, string>)
    requires IsLookup(norm, items, x) && IsLookup(norm, items, y)
    ensures x == y
  {
    forall k ensures k in x <==> k in y && (k in x ==> x[k] == y[k]) {
      SameEntry(norm, items, x, y, k);
      SameEntry(norm, items, y, x, k);
    }
  }

  lemma {:induction false} SameEntry(
    norm: Norm, items: seq<FromItem>, x: map<string, string>, y: map<string, string>, k: string)
    requires IsLookup(norm, items, x) && IsLookup(norm, items, y)
    ensures k in x ==> k in y && x[k] == y[k]
  {
    if k in x {
      assert Resolves(norm, items, k, x[k]) && Resolves(norm, items, k, y[k]);
      assert x[k] in {y[k]};
    }
  }

  lemma {:induction false} UniquesAreLookup(norm: Norm, items: seq<FromItem>, found: map<string, set<string>>)
    requires Collected(norm, items, found)
    ensures IsLookup(norm, items, Uniques(found))
  {
    forall k ensures k in Uniques(found) <==> exists a :: Resolves(norm, items, k, a) {
      if a :| Resolves(norm, items, k, a) { assert found[k] == {a}; }
      if k in Uniques(found) { assert Resolves(norm, items, k, Uniques(found)[k]); }
    }
  }

  lemma {:induction false} CollectOneMore(
    norm: Norm, items: seq<FromItem>, t: FromItem, found: map<string, set<string>>, more: map<string, set<string>>,
    keys: seq<string>)
    requires Collected(norm, items, found) && t.alias != "" && keys == KeysOf(norm, t)
    requires more.Keys == found.Keys + set k | k in keys && k != ""
    requires forall k | k in more ::
      more[k] == (if k in found then found[k] else {}) + (if k in keys then {t.alias} else {})
    ensures Collected(norm, items + [t], more)
  {
    forall k
      ensures k in more <==> k != "" && Candidates(norm, items + [t], k) != {}
      ensures k in more ==> more[k] == Candidates(norm, items + [t], k)
    {
      CandidatesOneMore(norm, items, t, k);
      KeyOneMore(found, more, keys, t.alias, k, Candidates(norm, items, k), Candidates(norm, items + [t], k));
    }
  }

  lemma {:induction false} KeyOneMore(
    found: map<string, set<string>>, more: map<string, set<string>>, keys: seq<string>, a: string,
    k: string, before: set<string>, after: set<string>)
    requires more.Keys == found.Keys + set k | k in keys && k != ""
    requires k in more ==> more[k] == (if k in found then found[k] else {}) + (if k in keys then {a} else {})
    requires k in found <==> k != "" && before != {}
    requires k in found ==> found[k] == before
    requires after == before + if k in keys then {a} else {}
    ensures k in more <==> k != "" && after != {}
    ensures k in more ==> more[k] == after
  {
  }

  lemma {:induction false} SkipUnnamed(norm: Norm, items: seq<FromItem>, t: FromItem, found: map<string, set<string>>)
    requires Collected(norm, items, found) && t.alias == ""
    ensures Collected(norm, items + [t], found)
  {
    forall k ensures Candidates(norm, items + [t], k) == Candidates(norm, items, k) {
      CandidatesOneMore(norm, items, t, k);
    }
  }

  /** `_build_table_alias_lookup` */
  method BuildTableAliasLookup(norm: Norm, items: seq<FromItem>) returns (lookup: map<string, string>)
    ensures IsLookup(norm, items, lookup)
  {
    var found: map<string, set<string>> := map[];
    for i := 0 to |items|
      invariant Collected(norm, items[..i], found)
    {
      var t := items[i];
      assert items[..i + 1] == items[..i] + [t];
      if t.alias != "" {
        var more := AddKeys(found, KeysOf(norm, t), t.alias);
        CollectOneMore(norm, items[..i], t, found, more, KeysOf(norm, t));
        found := more;
      } else {
        SkipUnnamed(norm, items[..i], t, found);
      }
    }
    assert items[..|items|] == items;
    UniquesAreLookup(norm, items, found);
    lookup := Uniques(found);
  }

  /** `next(iter(aliases))` of a one-element set. */
  function Single(s: set<string>): (a: string)
    requires |s| == 1
    ensures s == {a}
  {
    SingleExists(s);
    var a :| a in s && s == {a};
    a
  }

  lemma {:induction false} SingleExists(s: set<string>)
    requires |s| == 1
    ensures exists a :: a in s && s == {a}
  {
    var a :| a in s;
    assert |s - {a}| == 0;
    assert s == {a};
  }

  /** The names a column's qualifier can stand for, tried in this order. */
  function QualifierKeys(norm: Norm, c: ColumnRef): seq<string> {
    (if c.table != "" then [norm(c.table)] else [])
    + (if c.db != "" && c.table != "" then [norm(c.db + "." + c.table)] else [])
    + (if c.catalog != "" && c.db != "" && c.table != "" then [norm(c.catalog + "." + c.db + "." + c.table)] else [])
  }

  function FirstResolved(lookup: map<string, string>, keys: seq<string>): Option<string> {
    if keys == [] then None
    else if keys[0] in lookup && lookup[keys[0]] != "" then Some(lookup[keys[0]])
    else FirstResolved(lookup, keys[1..])
  }

  /** The qualifier after rewriting: the alias found, else the qualifier itself; schema and catalog are dropped. */
  function Rebound(norm: Norm, lookup: map<string, string>, c: ColumnRef): ColumnRef {
    var r := FirstResolved(lookup, QualifierKeys(norm, c));
    ColumnRef("", "", if r.Some? then r.value else c.table, c.name)
  }

  /** `_rewrite_column_for_stage` */
  method RewriteColumnForStage(norm: Norm, stageTables: map<string, string>, lookup: map<string, string>, c: ColumnRef)
    returns (rewritten: ColumnRef)
    ensures rewritten == Rebound(norm, lookup, c)
  {
    var keys := QualifierKeys(norm, c);
    var resolved: Option<string> := None;
    var i := 0;
    while i < |keys| && resolved == None
      invariant 0 <= i <= |keys|
      invariant resolved.None? ==> FirstResolved(lookup, keys) == FirstResolved(lookup, keys[i..])
      invariant resolved.Some? ==> FirstResolved(lookup, keys) == resolved
    {
      if keys[i] in lookup && lookup[keys[i]] != "" {
        resolved := Some(lookup[keys[i]]);
      }
      i := i + 1;
    }
    if resolved == None && c.table != "" && c.table in stageTables {
      resolved := Some(c.table);
    }
    rewritten := ColumnRef("", "", if resolved.Some? then resolved.value else c.table, c.name);
  }

  /** A table goes by the qualifier of a column: same name, and same schema and catalog where the column gives them. */
  ghost predicate NamedBy(t: FromItem, c: ColumnRef) {
    && t.alias != "" && t.name != "" && c.table == t.name
    && (c.db != "" ==> c.db == t.db)
    && (c.catalog != "" && c.db != "" ==> c.catalog == t.catalog)
  }

  /** A column qualified only by an alias stays bound to it, whatever other tables and aliases are called. */
  lemma {:induction false} AliasQualifierIsKept(
    norm: Norm, items: seq<FromItem>, lookup: map<string, string>, t: FromItem, c: ColumnRef)
    requires IsLookup(norm, items, lookup) && t in items && t.alias != ""
    requires c.table == t.alias && c.db == "" && c.catalog == ""
    ensures Rebound(norm, lookup, c) == c
  {
    var key := norm(c.table);
    assert QualifierKeys(norm, c) == [key];
    assert key == KeysOf(norm, t)[0];
    assert t.alias in Candidates(norm, items, key);
    if key in lookup { assert lookup[key] == t.alias; }
    assert [key][1..] == [];
    assert FirstResolved(lookup, [key]) == if key in lookup then Some(t.alias) else None;
  }

  lemma {:induction false} FirstResolvedKey(lookup: map<string, string>, keys: seq<string>) returns (k: string)
    requires FirstResolved(lookup, keys).Some?
    ensures k in keys && k in lookup && FirstResolved(lookup, keys) == Some(lookup[k])
  {
    if keys[0] in lookup && lookup[keys[0]] != "" {
      k := keys[0];
    } else {
      k := FirstResolvedKey(lookup, keys[1..]);
    }
  }

  /** A column rebound through the lookup goes to the one alias that goes by one of its qualifier's names. */
  lemma {:induction false} ReboundToTheOnlyCandidate(
    norm: Norm, items: seq<FromItem>, lookup: map<string, string>, c: ColumnRef)
    requires IsLookup(norm, items, lookup) && FirstResolved(lookup, QualifierKeys(norm, c)).Some?
    ensures exists k :: k in QualifierKeys(norm, c) && Resolves(norm, items, k, Rebound(norm, lookup, c).table)
    ensures exists t :: t in items && t.alias == Rebound(norm, lookup, c).table
  {
    var k := FirstResolvedKey(lookup, QualifierKeys(norm, c));
    assert Resolves(norm, items, k, lookup[k]);
    assert lookup[k] in Candidates(norm, items, k);
  }

  /** When the qualifier names a table and is rebound through the lookup, it is rebound to that table. */
  lemma {:induction false} NamedTableIsFound(
    norm: Norm, items: seq<FromItem>, lookup: map<string, string>, t: FromItem, c: ColumnRef)
    requires IsLookup(norm, items, lookup) && t in items && NamedBy(t, c)
    requires FirstResolved(lookup, QualifierKeys(norm, c)).Some?
    ensures Rebound(norm, lookup, c) == ColumnRef("", "", t.alias, c.name)
  {
    var k := FirstResolvedKey(lookup, QualifierKeys(norm, c));
    assert k in KeysOf(norm, t) by {
      var keys := KeysOf(norm, t);
      assert keys[1] == norm(t.name);
      if t.db != "" { assert keys[2] == norm(t.db + "." + t.name); }
      if t.db != "" && t.catalog != "" { assert keys[3] == norm(t.catalog + "." + t.db + "." + t.name); }
    }
    assert t.alias in Candidates(norm, items, k);
    assert Resolves(norm, items, k, lookup[k]);
  }

  /** No other table of the query goes by this name: not as alias, nor as table, with schema or catalog or without. */
  ghost predicate OnlyNamed(norm: Norm, items: seq<FromItem>, t: FromItem, name: string) {
    forall other | other in items && other.alias != t.alias && other.alias != "" ::
      && norm(other.alias) != norm(name) && norm(other.name) != norm(name)
      && (other.db != "" && other.name != "" ==> norm(other.db + "." + other.name) != norm(name))
      && (other.catalog != "" && other.db != "" && other.name != "" ==>
           norm(other.catalog + "." + other.db + "." + other.name) != norm(name))
  }

  /** The qualifier of a column as it is written, with schema and catalog when they are there. */
  function Qualifier(c: ColumnRef): string {
    (if c.catalog != "" && c.db != "" then c.catalog + "." else "") + (if c.db != "" then c.db + "." else "") + c.table
  }

  /** A column whose qualifier names a table, and no other table of the query, is rebound to that table. */
  lemma {:induction false} QualifiedTableIsFound(
    norm: Norm, items: seq<FromItem>, lookup: map<string, string>, t: FromItem, c: ColumnRef)
    requires IsLookup(norm, items, lookup) && t in items && NamedBy(t, c)
    requires OnlyNamed(norm, items, t, Qualifier(c)) && norm(Qualifier(c)) != ""
    ensures Rebound(norm, lookup, c) == ColumnRef("", "", t.alias, c.name)
  {
    var key, keys := norm(Qualifier(c)), QualifierKeys(norm, c);
    LastQualifier(norm, t, c);
    forall a ensures a in Candidates(norm, items, key) <==> a == t.alias {
      if a in Candidates(norm, items, key) {
        var other :| other in items && other.alias != "" && key in KeysOf(norm, other) && other.alias == a;
      }
    }
    assert Resolves(norm, items, key, t.alias);
    ResolvedSomewhere(lookup, keys, key);
    NamedTableIsFound(norm, items, lookup, t, c);
  }

  /** The whole qualifier is tried last, and is one of the names of the table. */
  lemma {:induction false} LastQualifier(norm: Norm, t: FromItem, c: ColumnRef)
    requires NamedBy(t, c)
    ensures norm(Qualifier(c)) in QualifierKeys(norm, c) && norm(Qualifier(c)) in KeysOf(norm, t)
  {
    var keys, names := QualifierKeys(norm, c), KeysOf(norm, t);
    assert names[1] == norm(t.name);
    if c.db == "" {
      assert Qualifier(c) == c.table && keys[0] == norm(c.table);
    } else if c.catalog == "" {
      assert Qualifier(c) == c.db + "." + c.table && keys[1] == norm(c.db + "." + c.table);
      assert names[2] == norm(t.db + "." + t.name);
    } else {
      assert Qualifier(c) == c.catalog + "." + c.db + "." + c.table;
      assert keys[2] == norm(c.catalog + "." + c.db + "." + c.table);
      assert names[3] == norm(t.catalog + "." + t.db + "." + t.name);
    }
  }

  lemma {:induction false} ResolvedSomewhere(lookup: map<string, string>, keys: seq<string>, key: string)
    requires key in keys && key in lookup && lookup[key] != ""
    ensures FirstResolved(lookup, keys).Some?
  {
    if !(keys[0] in lookup && lookup[keys[0]] != "") { ResolvedSomewhere(lookup, keys[1..], key); }
  }

  // ----- the whole expression -----

  function RewriteExpr(norm: Norm, lookup: map<string, string>, e: Expr): Expr {
    match e
    case Column(c) => Column(Rebound(norm, lookup, c))
    case Literal(_) => e
    case Compare(op, l, r) => Compare(op, RewriteExpr(norm, lookup, l), RewriteExpr(norm, lookup, r))
    case And(l, r) => And(RewriteExpr(norm, lookup, l), RewriteExpr(norm, lookup, r))
    case Or(l, r) => Or(RewriteExpr(norm, lookup, l), RewriteExpr(norm, lookup, r))
    case Not(x) => Not(RewriteExpr(norm, lookup, x))
    case IsNull(x) => IsNull(RewriteExpr(norm, lookup, x))
    case Paren(x) => Paren(RewriteExpr(norm, lookup, x))
    case Call(fn, l, r) => Call(fn, RewriteExpr(norm, lookup, l), RewriteExpr(norm, lookup, r))
  }

  function RewriteItem(stageTables: map<string, string>, t: FromItem): FromItem {
    if t.alias in stageTables then FromItem("", "", stageTables[t.alias], t.alias) else t
  }

  function RewriteJoins(
    norm: Norm, lookup: map<string, string>, stageTables: map<string, string>, joins: seq<Join>): (r: seq<Join>)
    ensures |r| == |joins|
    decreases |joins|
  {
    if joins == [] then []
    else
      var j := joins[|joins| - 1];
      RewriteJoins(norm, lookup, stageTables, joins[..|joins| - 1])
      + [Join(j.kind, RewriteItem(stageTables, j.item), RewriteExpr(norm, lookup, j.on))]
  }

  function RewriteList(norm: Norm, lookup: map<string, string>, es: seq<Expr>): seq<Expr> {
    if es == [] then [] else [RewriteExpr(norm, lookup, es[0])] + RewriteList(norm, lookup, es[1..])
  }

  function Items(q: Query): seq<FromItem> { [q.from] + JoinItems(q.joins) }

  function JoinItems(joins: seq<Join>): seq<FromItem>
    decreases |joins|
  {
    if joins == [] then [] else JoinItems(joins[..|joins| - 1]) + [joins[|joins| - 1].item]
  }

  /** `rewrite_tables_to_stage_expression` */
  function RewriteQuery(norm: Norm, lookup: map<string, string>, stageTables: map<string, string>, q: Query): Query {
    Query(RewriteItem(stageTables, q.from), RewriteJoins(norm, lookup, stageTables, q.joins),
          if q.where.Some? then Some(RewriteExpr(norm, lookup, q.where.value)) else None,
          RewriteList(norm, lookup, q.tops), q.star, q.shape, q.scope)
  }

  /** No column of the expression has a schema or a catalog. */
  ghost predicate BareColumns(cs: seq<ColumnRef>) { forall c | c in cs :: c.db == "" && c.catalog == "" }

  lemma {:induction false} RewrittenColumnsAreBare(norm: Norm, lookup: map<string, string>, e: Expr)
    ensures BareColumns(Columns(RewriteExpr(norm, lookup, e)))
  {
    match e
    case Column(_) =>
    case Literal(_) =>
    case Compare(_, l, r) => RewrittenColumnsAreBare(norm, lookup, l); RewrittenColumnsAreBare(norm, lookup, r);
    case And(l, r) => RewrittenColumnsAreBare(norm, lookup, l); RewrittenColumnsAreBare(norm, lookup, r);
    case Or(l, r) => RewrittenColumnsAreBare(norm, lookup, l); RewrittenColumnsAreBare(norm, lookup, r);
    case Not(x) => RewrittenColumnsAreBare(norm, lookup, x);
    case IsNull(x) => RewrittenColumnsAreBare(norm, lookup, x);
    case Paren(x) => RewrittenColumnsAreBare(norm, lookup, x);
    case Call(_, l, r) => RewrittenColumnsAreBare(norm, lookup, l); RewrittenColumnsAreBare(norm, lookup, r);
  }

  lemma {:induction false} RewrittenListIsBare(norm: Norm, lookup: map<string, string>, es: seq<Expr>)
    ensures BareColumns(ColumnsOfAll(RewriteList(norm, lookup, es)))
  {
    if es != [] {
      RewrittenColumnsAreBare(norm, lookup, es[0]);
      RewrittenListIsBare(norm, lookup, es[1..]);
    }
  }

  lemma {:induction false} RewrittenJoinsAreBare(
    norm: Norm, lookup: map<string, string>, stageTables: map<string, string>, joins: seq<Join>)
    ensures BareColumns(OnColumns(RewriteJoins(norm, lookup, stageTables, joins)))
    decreases |joins|
  {
    if joins != [] {
      RewrittenColumnsAreBare(norm, lookup, joins[|joins| - 1].on);
      RewrittenJoinsAreBare(norm, lookup, stageTables, joins[..|joins| - 1]);
      var joins' := RewriteJoins(norm, lookup, stageTables, joins);
      assert joins'[..|joins'| - 1] == RewriteJoins(norm, lookup, stageTables, joins[..|joins| - 1]);
    }
  }

  /** No column anywhere in the rewritten query has a schema or a catalog left: stage outputs have none. */
  lemma {:induction false} RewrittenQueryIsBare(
    norm: Norm, lookup: map<string, string>, stageTables: map<string, string>, q: Query)
    ensures BareColumns(QueryColumns(RewriteQuery(norm, lookup, stageTables, q)))
  {
    RewrittenJoinsAreBare(norm, lookup, stageTables, q.joins);
    if q.where.Some? { RewrittenColumnsAreBare(norm, lookup, q.where.value); }
    RewrittenListIsBare(norm, lookup, q.tops);
  }

  // ----- columns that stay where they are -----

  /** The alias that the first of these names to name exactly one alias stands for. */
  ghost function FirstNamed(norm: Norm, items: seq<FromItem>, keys: seq<string>): Option<string> {
    if keys == [] then None
    else if keys[0] != "" && |Candidates(norm, items, keys[0])| == 1 then Some(Single(Candidates(norm, items, keys[0])))
    else FirstNamed(norm, items, keys[1..])
  }

  lemma {:induction false} CandidatesAreNamed(norm: Norm, items: seq<FromItem>, key: string)
    ensures "" !in Candidates(norm, items, key)
  {
  }

  lemma {:induction false} FirstResolvedIsFirstNamed(
    norm: Norm, items: seq<FromItem>, lookup: map<string, string>, keys: seq<string>)
    requires IsLookup(norm, items, lookup)
    ensures FirstResolved(lookup, keys) == FirstNamed(norm, items, keys)
  {
    if keys != [] {
      var k := keys[0];
      FirstResolvedIsFirstNamed(norm, items, lookup, keys[1..]);
      CandidatesAreNamed(norm, items, k);
      if k != "" && |Candidates(norm, items, k)| == 1 {
        assert Resolves(norm, items, k, Single(Candidates(norm, items, k)));
      }
      if k in lookup { assert Resolves(norm, items, k, lookup[k]); }
    }
  }

  /** The column's qualifier leads to the alias written in it, or nowhere else. */
  ghost predicate LeadsBack(norm: Norm, items: seq<FromItem>, c: ColumnRef) {
    var r := FirstNamed(norm, items, QualifierKeys(norm, c));
    r.None? || r.value == c.table
  }

  /** A column keeps the alias it is written with exactly when its qualifier does not lead to another one. */
  lemma {:induction false} AliasIsKeptIff(norm: Norm, items: seq<FromItem>, lookup: map<string, string>, c: ColumnRef)
    requires IsLookup(norm, items, lookup)
    ensures Rebound(norm, lookup, c) == ColumnRef("", "", c.table, c.name) <==> LeadsBack(norm, items, c)
  {
    FirstResolvedIsFirstNamed(norm, items, lookup, QualifierKeys(norm, c));
  }

  /**
   * Three ways for a column with an alias to keep it: it has no schema, only one table goes by
   * the alias, or the schema and catalog it names are those of that table.
   */
  lemma {:induction false} WaysToLeadBack(
    norm: Norm, items: seq<FromItem>, lookup: map<string, string>, t: FromItem, c: ColumnRef)
    requires IsLookup(norm, items, lookup) && t in items && c.table == t.alias != ""
    requires || c.db == ""
             || (norm(c.table) != "" && Candidates(norm, items, norm(c.table)) == {c.table})
             || NamedBy(t, c)
    ensures LeadsBack(norm, items, c)
  {
    FirstResolvedIsFirstNamed(norm, items, lookup, QualifierKeys(norm, c));
    if c.db == "" {
      AliasQualifierIsKept(norm, items, lookup, t, ColumnRef("", "", c.table, c.name));
      assert QualifierKeys(norm, c) == QualifierKeys(norm, ColumnRef("", "", c.table, c.name));
    } else if Candidates(norm, items, norm(c.table)) == {c.table} && norm(c.table) != "" {
      assert QualifierKeys(norm, c)[0] == norm(c.table);
    } else if FirstResolved(lookup, QualifierKeys(norm, c)).Some? {
      NamedTableIsFound(norm, items, lookup, t, c);
    }
  }

  // A column written with an alias of the query, or with no table at all, that keeps its alias.
  ghost predicate PlainColumn(norm: Norm, q: Query, c: ColumnRef) {
    (c.table == "" || c.table in QueryAliases(q)) && LeadsBack(norm, Items(q), c)
  }

  /** Without a schema every column written with an alias is such a column. */
  lemma {:induction false} NoSchemaIsPlain(norm: Norm, q: Query, lookup: map<string, string>, c: ColumnRef)
    requires IsLookup(norm, Items(q), lookup) && c.db == "" && (c.table == "" || c.table in QueryAliases(q))
    requires "" !in QueryAliases(q)
    ensures PlainColumn(norm, q, c)
  {
    if c.table != "" {
      var t := ItemOfAlias(q.from, q.joins, c.table);
      WaysToLeadBack(norm, Items(q), lookup, t, c);
    }
  }

  lemma {:induction false} ItemOfAlias(base: FromItem, joins: seq<Join>, a: string) returns (t: FromItem)
    requires a in Aliases(base.alias, joins)
    ensures t in [base] + JoinItems(joins) && t.alias == a
    decreases |joins|
  {
    if joins == [] {
      t := base;
    } else if a == joins[|joins| - 1].item.alias {
      t := joins[|joins| - 1].item;
    } else {
      t := ItemOfAlias(base, joins[..|joins| - 1], a);
    }
  }

  // ----- rewriting keeps meaning -----

  ghost predicate AllPlain(norm: Norm, q: Query, cs: seq<ColumnRef>) { forall c | c in cs :: PlainColumn(norm, q, c) }

  ghost predicate SameMeaning(sem: Semantics, scope: Scope, x: Expr, y: Expr) {
    forall row: Row :: Eval(sem, scope, row, x) == Eval(sem, scope, row, y)
  }

  lemma {:induction false} RewrittenColumnValue(
    sem: Semantics, scope: Scope, row: Row, norm: Norm, q: Query, lookup: map<string, string>, c: ColumnRef)
    requires IsLookup(norm, Items(q), lookup) && AllPlain(norm, q, [c])
    ensures Eval(sem, scope, row, Column(Rebound(norm, lookup, c))) == Eval(sem, scope, row, Column(c))
  {
    assert c in [c];
    AliasIsKeptIff(norm, Items(q), lookup, c);
  }

  lemma {:induction false} PlainParts(norm: Norm, q: Query, e: Expr)
    requires AllPlain(norm, q, Columns(e))
    ensures e.Compare? || e.And? || e.Or? || e.Call? ==>
      AllPlain(norm, q, Columns(e.l)) && AllPlain(norm, q, Columns(e.r))
  {
  }

  lemma {:induction false} RewrittenValue(
    sem: Semantics, scope: Scope, row: Row, norm: Norm, q: Query, lookup: map<string, string>, e: Expr)
    requires IsLookup(norm, Items(q), lookup) && AllPlain(norm, q, Columns(e))
    ensures Eval(sem, scope, row, RewriteExpr(norm, lookup, e)) == Eval(sem, scope, row, e)
  {
    PlainParts(norm, q, e);
    match e
    case Column(c) => RewrittenColumnValue(sem, scope, row, norm, q, lookup, c);
    case Literal(_) =>
    case Compare(_, l, r) =>
      RewrittenValue(sem, scope, row, norm, q, lookup, l); RewrittenValue(sem, scope, row, norm, q, lookup, r);
    case And(l, r) =>
      RewrittenValue(sem, scope, row, norm, q, lookup, l); RewrittenValue(sem, scope, row, norm, q, lookup, r);
    case Or(l, r) =>
      RewrittenValue(sem, scope, row, norm, q, lookup, l); RewrittenValue(sem, scope, row, norm, q, lookup, r);
    case Not(x) => RewrittenValue(sem, scope, row, norm, q, lookup, x);
    case IsNull(x) => RewrittenValue(sem, scope, row, norm, q, lookup, x);
    case Paren(x) => RewrittenValue(sem, scope, row, norm, q, lookup, x);
    case Call(_, l, r) =>
      RewrittenValue(sem, scope, row, norm, q, lookup, l); RewrittenValue(sem, scope, row, norm, q, lookup, r);
  }

  /** A rewritten expression has the value of the original on every row. */
  lemma {:induction false} RewrittenExprMeansTheSame(
    sem: Semantics, scope: Scope, norm: Norm, q: Query, lookup: map<string, string>, e: Expr)
    requires IsLookup(norm, Items(q), lookup) && AllPlain(norm, q, Columns(e))
    ensures SameMeaning(sem, scope, RewriteExpr(norm, lookup, e), e)
  {
    forall row: Row ensures Eval(sem, scope, row, RewriteExpr(norm, lookup, e)) == Eval(sem, scope, row, e) {
      RewrittenValue(sem, scope, row, norm, q, lookup, e);
    }
  }

  lemma {:induction false} SameMatches(sem: Semantics, scope: Scope, x: Expr, y: Expr, l: Row, a: string, t: Table)
    requires SameMeaning(sem, scope, x, y)
    ensures Matches(sem, scope, x, l, a, t) == Matches(sem, scope, y, l, a, t)
  {
    if t != [] {
      SameMatches(sem, scope, x, y, l, a, t[1..]);
      assert Eval(sem, scope, l[a := t[0]], x) == Eval(sem, scope, l[a := t[0]], y);
    }
  }

  lemma {:induction false} SameExtendAll(
    sem: Semantics, scope: Scope, kind: JoinKind, x: Expr, y: Expr, rows: seq<Row>, a: string, t: Table)
    requires SameMeaning(sem, scope, x, y)
    ensures ExtendAll(sem, scope, kind, x, rows, a, t) == ExtendAll(sem, scope, kind, y, rows, a, t)
  {
    if rows != [] {
      SameMatches(sem, scope, x, y, rows[0], a, t);
      SameExtendAll(sem, scope, kind, x, y, rows[1..], a, t);
    }
  }

  lemma {:induction false} SameMatched(
    sem: Semantics, scope: Scope, x: Expr, y: Expr, rows: seq<Row>, a: string, u: Tuple)
    requires SameMeaning(sem, scope, x, y)
    ensures Matched(sem, scope, x, rows, a, u) == Matched(sem, scope, y, rows, a, u)
  {
    forall i | 0 <= i < |rows| ensures Holds(sem, scope, rows[i][a := u], x) == Holds(sem, scope, rows[i][a := u], y) {
      assert Eval(sem, scope, rows[i][a := u], x) == Eval(sem, scope, rows[i][a := u], y);
    }
  }

  lemma {:induction false} SameUnmatched(
    sem: Semantics, scope: Scope, x: Expr, y: Expr, rows: seq<Row>, blank: Row, a: string, t: Table)
    requires SameMeaning(sem, scope, x, y)
    ensures Unmatched(sem, scope, x, rows, blank, a, t) == Unmatched(sem, scope, y, rows, blank, a, t)
  {
    if t != [] {
      SameMatched(sem, scope, x, y, rows, a, t[0]);
      SameUnmatched(sem, scope, x, y, rows, blank, a, t[1..]);
    }
  }

  lemma {:induction false} RewrittenJoins(
    sem: Semantics, tables: map<string, Table>, norm: Norm, q: Query, lookup: map<string, string>,
    stageTables: map<string, string>, joins: seq<Join>)
    requires IsLookup(norm, Items(q), lookup) && AllPlain(norm, q, OnColumns(joins))
    ensures Aliases(q.from.alias, RewriteJoins(norm, lookup, stageTables, joins)) == Aliases(q.from.alias, joins)
    ensures JoinRows(sem, q.scope, q.from.alias, RewriteJoins(norm, lookup, stageTables, joins), tables) ==
            JoinRows(sem, q.scope, q.from.alias, joins, tables)
    decreases |joins|
  {
    if joins != [] {
      var init, j := joins[..|joins| - 1], joins[|joins| - 1];
      var rows, t := JoinRows(sem, q.scope, q.from.alias, init, tables), TableOf(tables, j.item.alias);
      var on := RewriteExpr(norm, lookup, j.on);
      RewrittenJoins(sem, tables, norm, q, lookup, stageTables, init);
      RewrittenExprMeansTheSame(sem, q.scope, norm, q, lookup, j.on);
      SameExtendAll(sem, q.scope, j.kind, on, j.on, rows, j.item.alias, t);
      SameUnmatched(sem, q.scope, on, j.on, rows, NullRow(Aliases(q.from.alias, init)), j.item.alias, t);
      LastRewrittenJoin(norm, lookup, stageTables, joins);
    }
  }

  lemma {:induction false} LastRewrittenJoin(
    norm: Norm, lookup: map<string, string>, stageTables: map<string, string>, joins: seq<Join>)
    requires joins != []
    ensures var joins', j := RewriteJoins(norm, lookup, stageTables, joins), joins[|joins| - 1];
      && joins'[..|joins| - 1] == RewriteJoins(norm, lookup, stageTables, joins[..|joins| - 1])
      && joins'[|joins| - 1] == Join(j.kind, RewriteItem(stageTables, j.item), RewriteExpr(norm, lookup, j.on))
  {
  }

  lemma {:induction false} SameKeepWhere(sem: Semantics, scope: Scope, x: Expr, y: Expr, rows: seq<Row>)
    requires SameMeaning(sem, scope, x, y)
    ensures KeepWhere(sem, scope, Some(x), rows) == KeepWhere(sem, scope, Some(y), rows)
  {
    if rows != [] {
      SameKeepWhere(sem, scope, x, y, rows[1..]);
      assert Eval(sem, scope, rows[0], x) == Eval(sem, scope, rows[0], y);
    }
  }

  lemma {:induction false} RewrittenList(
    sem: Semantics, scope: Scope, row: Row, norm: Norm, q: Query, lookup: map<string, string>, es: seq<Expr>)
    requires IsLookup(norm, Items(q), lookup) && AllPlain(norm, q, ColumnsOfAll(es))
    ensures EvalList(sem, scope, row, RewriteList(norm, lookup, es)) == EvalList(sem, scope, row, es)
  {
    if es != [] {
      RewrittenValue(sem, scope, row, norm, q, lookup, es[0]);
      RewrittenList(sem, scope, row, norm, q, lookup, es[1..]);
    }
  }

  lemma {:induction false} RewrittenTops(
    sem: Semantics, scope: Scope, rows: seq<Row>, norm: Norm, q: Query, lookup: map<string, string>, es: seq<Expr>)
    requires IsLookup(norm, Items(q), lookup) && AllPlain(norm, q, ColumnsOfAll(es))
    ensures EvalTops(sem, scope, rows, RewriteList(norm, lookup, es)) == EvalTops(sem, scope, rows, es)
  {
    if rows != [] {
      RewrittenList(sem, scope, rows[0], norm, q, lookup, es);
      RewrittenTops(sem, scope, rows[1..], norm, q, lookup, es);
    }
  }

  lemma {:induction false} QueryColumnParts(q: Query)
    ensures forall c | c in OnColumns(q.joins) :: c in QueryColumns(q)
    ensures q.where.Some? ==> forall c | c in Columns(q.where.value) :: c in QueryColumns(q)
    ensures forall c | c in ColumnsOfAll(q.tops) :: c in QueryColumns(q)
  {
  }

  /** The rewritten query means what the original does, on tables looked up by alias. */
  lemma {:induction false} RewriteKeepsSelection(
    sem: Semantics, norm: Norm, lookup: map<string, string>, stageTables: map<string, string>, q: Query,
    tables: map<string, Table>)
    requires IsLookup(norm, Items(q), lookup) && AllPlain(norm, q, QueryColumns(q))
    ensures var q' := RewriteQuery(norm, lookup, stageTables, q);
      QueryAliases(q') == QueryAliases(q) && Select(sem, q', tables) == Select(sem, q, tables)
  {
    QueryColumnParts(q);
    RewrittenJoins(sem, tables, norm, q, lookup, stageTables, q.joins);
    var rows := JoinRows(sem, q.scope, q.from.alias, q.joins, tables);
    if q.where.Some? {
      RewrittenExprMeansTheSame(sem, q.scope, norm, q, lookup, q.where.value);
      SameKeepWhere(sem, q.scope, RewriteExpr(norm, lookup, q.where.value), q.where.value, rows);
    }
    RewrittenTops(sem, q.scope, SelectedRows(sem, q, tables), norm, q, lookup, q.tops);
  }
}
