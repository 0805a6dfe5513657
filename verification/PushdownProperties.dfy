/** Filter pushdown, projection pushdown and stage rewriting together preserve the query. */
module PushdownProperties {
  import opened Prelude
  import opened Dag
  import opened Sql
  import opened JoinFilter
  import opened Projection
  import opened Renderer
  import opened Plans
  import opened Planner

  // ----- three-valued AND -----

  ghost predicate AllHold(sem: Semantics, scope: Scope, row: Row, es: seq<Expr>) {
    forall i | 0 <= i < |es| :: Holds(sem, scope, row, es[i])
  }

  lemma {:induction false} AllHoldConcat(sem: Semantics, scope: Scope, row: Row, x: seq<Expr>, y: seq<Expr>)
    ensures AllHold(sem, scope, row, x + y) <==> AllHold(sem, scope, row, x) && AllHold(sem, scope, row, y)
  {
    assert forall i | 0 <= i < |x| :: (x + y)[i] == x[i];
    assert forall i | 0 <= i < |y| :: (x + y)[|x| + i] == y[i];
  }

  /** A WHERE clause holds of a row exactly when all its conjuncts do. */
  lemma {:induction false} WhereHoldsIffConjunctsDo(sem: Semantics, scope: Scope, row: Row, e: Expr)
    ensures Holds(sem, scope, row, e) <==> AllHold(sem, scope, row, Conjuncts(e))
  {
    if e.And? {
      WhereHoldsIffConjunctsDo(sem, scope, row, e.l);
      WhereHoldsIffConjunctsDo(sem, scope, row, e.r);
      AllHoldConcat(sem, scope, row, Conjuncts(e.l), Conjuncts(e.r));
    } else {
      assert Conjuncts(e)[0] == e;
    }
  }

  lemma {:induction false} ConjunctColumns(e: Expr, p: Expr)
    requires p in Conjuncts(e)
    ensures forall c | c in Columns(p) :: c in Columns(e)
  {
    if e.And? {
      if p in Conjuncts(e.l) { ConjunctColumns(e.l, p); } else { ConjunctColumns(e.r, p); }
    }
  }

  // ----- a pushed conjunct means the same in the scan -----

  /** Every column of the expression belongs to alias `a`. */
  ghost predicate LocalTo(scope: Scope, a: string, e: Expr) {
    forall c | c in Columns(e) :: AliasOf(scope, c) == a && (c.table == "" || c.table == a)
  }

  lemma {:induction false} ScanExprMeansTheSame(
    sem: Semantics, scope: Scope, norm: Norm, b: Binding, a: string, row: Row, e: Expr)
    requires LocalTo(scope, a, e) && a != "" && norm("") == ""
    ensures Eval(sem, Always(a), map[a := TupleOf(row, a)], ScanExpr(norm, b, a, e)) == Eval(sem, scope, row, e)
  {
    match e
    case Column(c) =>
      assert ScanColumn(norm, b, a, c) == ColumnRef("", "", c.table, c.name);
    case Literal(_) =>
    case Compare(_, l, r) =>
      ScanExprMeansTheSame(sem, scope, norm, b, a, row, l); ScanExprMeansTheSame(sem, scope, norm, b, a, row, r);
    case And(l, r) =>
      ScanExprMeansTheSame(sem, scope, norm, b, a, row, l); ScanExprMeansTheSame(sem, scope, norm, b, a, row, r);
    case Or(l, r) =>
      ScanExprMeansTheSame(sem, scope, norm, b, a, row, l); ScanExprMeansTheSame(sem, scope, norm, b, a, row, r);
    case Not(x) => ScanExprMeansTheSame(sem, scope, norm, b, a, row, x);
    case IsNull(x) => ScanExprMeansTheSame(sem, scope, norm, b, a, row, x);
    case Paren(x) => ScanExprMeansTheSame(sem, scope, norm, b, a, row, x);
    case Call(_, l, r) =>
      ScanExprMeansTheSame(sem, scope, norm, b, a, row, l); ScanExprMeansTheSame(sem, scope, norm, b, a, row, r);
  }

  lemma {:induction false} OnlyAliasMembers(ps: seq<Expr>, aliases: seq<string>, a: string)
    ensures forall p | p in OnlyAlias(ps, aliases, a) :: p in ps && PredicateAliases(p, aliases) == {a}
  {
    if ps != [] { OnlyAliasMembers(ps[1..], aliases, a); }
  }

  lemma {:induction false} PushableMembers(r: Request, ps: seq<Expr>, target: string)
    ensures forall p | p in Pushable(r, ps, target) :: p in ps
  {
    if ps != [] { PushableMembers(r, ps[1..], target); }
  }

  /** A filter in a scan mentions no schema or catalog; and only the alias of the scan, when it is local to it. */
  lemma {:induction false} ScanColumnsAreBare(scope: Scope, norm: Norm, b: Binding, a: string, e: Expr)
    requires LocalTo(scope, a, e)
    ensures forall c | c in Columns(ScanExpr(norm, b, a, e)) ::
      c.db == "" && c.catalog == "" && (c.table == "" || c.table == a)
  {
    match e
    case Column(c) =>
      assert c in Columns(e);
    case Literal(_) =>
    case Compare(_, l, r) => ScanColumnsAreBare(scope, norm, b, a, l); ScanColumnsAreBare(scope, norm, b, a, r);
    case And(l, r) => ScanColumnsAreBare(scope, norm, b, a, l); ScanColumnsAreBare(scope, norm, b, a, r);
    case Or(l, r) => ScanColumnsAreBare(scope, norm, b, a, l); ScanColumnsAreBare(scope, norm, b, a, r);
    case Not(x) => ScanColumnsAreBare(scope, norm, b, a, x);
    case IsNull(x) => ScanColumnsAreBare(scope, norm, b, a, x);
    case Paren(x) => ScanColumnsAreBare(scope, norm, b, a, x);
    case Call(_, l, r) => ScanColumnsAreBare(scope, norm, b, a, l); ScanColumnsAreBare(scope, norm, b, a, r);
  }

  // ----- what is pushed -----

  /** The expression and everything it is made of. */
  function Nodes(e: Expr): seq<Expr> {
    [e] + match e
      case Column(_) => []
      case Literal(_) => []
      case Compare(_, l, r) => Nodes(l) + Nodes(r)
      case And(l, r) => Nodes(l) + Nodes(r)
      case Or(l, r) => Nodes(l) + Nodes(r)
      case Not(x) => Nodes(x)
      case IsNull(x) => Nodes(x)
      case Paren(x) => Nodes(x)
      case Call(_, l, r) => Nodes(l) + Nodes(r)
  }

  /** Nothing in it is an AND, or a function other than IN and unary minus. */
  ghost predicate Portable(e: Expr) {
    forall x | x in Nodes(e) :: !x.And? && (x.Call? ==> x.fn == "in" || x.fn == "neg")
  }

  lemma {:induction false} SimpleIffPortable(e: Expr)
    ensures IsSimple(e) <==> Portable(e)
  {
    assert e == Nodes(e)[0];
    match e
    case Column(_) =>
    case Literal(_) =>
    case Compare(_, l, r) => SimpleIffPortable(l); SimpleIffPortable(r);
    case And(_, _) =>
    case Or(l, r) => SimpleIffPortable(l); SimpleIffPortable(r);
    case Not(x) => SimpleIffPortable(x);
    case IsNull(x) => SimpleIffPortable(x);
    case Paren(x) => SimpleIffPortable(x);
    case Call(_, l, r) => SimpleIffPortable(l); SimpleIffPortable(r);
  }

  /** Dialect names that mean the same: absent and blank names mean `tsql`. */
  ghost predicate SameDialect(norm: Norm, x: string, y: string) {
    norm(x) == norm(y) || (norm(x) in {"", "tsql"} && norm(y) in {"", "tsql"})
  }

  lemma {:induction false} OnlyAliasIff(ps: seq<Expr>, aliases: seq<string>, a: string, p: Expr)
    ensures p in OnlyAlias(ps, aliases, a) <==> p in ps && PredicateAliases(p, aliases) == {a}
  {
    if ps != [] { OnlyAliasIff(ps[1..], aliases, a, p); }
  }

  lemma {:induction false} PushableIff(r: Request, ps: seq<Expr>, target: string, p: Expr)
    ensures p in Pushable(r, ps, target) <==> p in ps && CanPush(r.norm, p, r.inputDialect, target)
  {
    if ps != [] { PushableIff(r, ps[1..], target, p); }
  }

  /**
   * A conjunct of WHERE is pushed into the scan of a table exactly when it mentions the table's alias,
   * and no other alias of the query, and is portable or the source speaks the dialect of the query.
   */
  lemma {:induction false} PushedIff(r: Request, t: TableRef, p: Expr)
    requires t.alias in QueryAliases(r.query)
    ensures p in PushedFilters(r, t) <==>
      && p in WhereConjuncts(r.query)
      && (exists c :: c in Columns(p) && c.table == t.alias)
      && (forall c | c in Columns(p) && c.table in QueryAliases(r.query) :: c.table == t.alias)
      && (Portable(p) ||
          SameDialect(
            r.norm, if t.sourceId in r.dialects then r.dialects[t.sourceId] else r.inputDialect, r.inputDialect))
  {
    var aliases := QueryAliases(r.query);
    OnlyAliasIff(WhereConjuncts(r.query), aliases, t.alias, p);
    PushableIff(r, OnlyAlias(WhereConjuncts(r.query), aliases, t.alias), TargetDialect(r, t.sourceId), p);
    SimpleIffPortable(p);
    assert PredicateAliases(p, aliases) == {t.alias} <==>
      && (exists c :: c in Columns(p) && c.table == t.alias)
      && (forall c | c in Columns(p) && c.table in aliases :: c.table == t.alias) by {
      if PredicateAliases(p, aliases) == {t.alias} { assert t.alias in PredicateAliases(p, aliases); }
      if c :| c in Columns(p) && c.table == t.alias { assert c.table in PredicateAliases(p, aliases); }
      if PredicateAliases(p, aliases) == {t.alias} {
        forall c | c in Columns(p) && c.table in aliases ensures c.table == t.alias {
          assert c.table in PredicateAliases(p, aliases);
        }
      }
    }
  }

  // ----- the requests for which pushdown is analysed -----

  /** Tables are written exactly like aliases, and a schema or catalog does not lead away from them. */
  ghost predicate PlainQuery(norm: Norm, q: Query) {
    AllPlain(norm, q, QueryColumns(q)) && forall c | c in QueryColumns(q) :: c.name != ""
  }

  ghost predicate WellFormed(r: Request) {
    && Bound(r) && r.tables != [] && IdsOf(r.tables) == QueryAliases(r.query)
    && Distinct(QueryAliases(r.query)) && "" !in QueryAliases(r.query)
    && PlainQuery(r.norm, r.query) && r.norm("") == ""
  }

  /** An unqualified column in a pushed conjunct is a column of the alias the conjunct is pushed to. */
  ghost predicate OwnColumnsOnly(r: Request) {
    forall t, p | t in r.tables && p in PushedFilters(r, t) :: forall c | c in Columns(p) ::
      AliasOf(r.query.scope, c) == t.alias
  }

  /** The filters each scan applies. */
  function FiltersPushed(r: Request, tables: seq<TableRef>): Filters
    requires forall i | 0 <= i < |tables| :: tables[i].tableKey in r.bindings
  {
    if tables == [] then map[]
    else
      var t := tables[|tables| - 1];
      var pushed := ScanExprs(r.norm, r.bindings[t.tableKey], t.alias, PushedFilters(r, t));
      FiltersPushed(r, tables[..|tables| - 1])[t.alias := pushed]
  }

  /** When every column is written with an alias there are no unqualified columns to go astray. */
  lemma {:induction false} QualifiedColumnsAreOwn(r: Request)
    requires forall c | c in QueryColumns(r.query) :: c.table != "" && c.table in QueryAliases(r.query)
    ensures OwnColumnsOnly(r)
  {
    var q, aliases := r.query, QueryAliases(r.query);
    forall t, p | t in r.tables && p in PushedFilters(r, t)
      ensures forall c | c in Columns(p) :: AliasOf(q.scope, c) == t.alias
    {
      PushableMembers(r, OnlyAlias(WhereConjuncts(q), aliases, t.alias), TargetDialect(r, t.sourceId));
      OnlyAliasMembers(WhereConjuncts(q), aliases, t.alias);
      ConjunctColumns(q.where.value, p);
      QueryColumnParts(q);
      forall c | c in Columns(p)
        ensures AliasOf(q.scope, c) == t.alias
      {
        assert c.table in PredicateAliases(p, aliases);
      }
    }
  }

  /** What the scans keep. */
  function PushedKeep(sem: Semantics, r: Request): Keep
    requires Bound(r)
  {
    var fs := FiltersPushed(r, r.tables);
    (a, u) => Accepts(sem, FiltersOf(fs, a), a, u)
  }

  predicate WhereHolds(sem: Semantics, q: Query, row: Row) {
    q.where.None? || Holds(sem, q.scope, row, q.where.value)
  }

  function WhereTest(sem: Semantics, q: Query): Test { row => WhereHolds(sem, q, row) }

  /** The whole WHERE clause, pushed or not, rejects every row in which these aliases are null-extended. */
  ghost predicate WhereRejectsNulls(sem: Semantics, q: Query, nulls: seq<string>) {
    RejectsNulls(WhereTest(sem, q), QueryAliases(q), nulls)
  }

  /**
   * At each join: filtering removes nothing that could make the join null-extend more rows, or WHERE
   * rejects those rows.
   */
  ghost predicate SafePushdown(sem: Semantics, r: Request)
    requires Bound(r)
  {
    Safe(PushedKeep(sem, r), WhereTest(sem, r.query), QueryAliases(r.query), r.query.from.alias, r.query.joins)
  }

  lemma {:induction false} FiltersPushedAt(r: Request, tables: seq<TableRef>, i: nat)
    requires forall k | 0 <= k < |tables| :: tables[k].tableKey in r.bindings
    requires forall j, k | 0 <= j < k < |tables| :: tables[j].alias != tables[k].alias
    requires i < |tables|
    ensures FiltersOf(FiltersPushed(r, tables), tables[i].alias) ==
            ScanExprs(r.norm, r.bindings[tables[i].tableKey], tables[i].alias, PushedFilters(r, tables[i]))
  {
    if i < |tables| - 1 { FiltersPushedAt(r, tables[..|tables| - 1], i); }
  }

  lemma {:induction false} PushedFilterIsLocal(r: Request, t: TableRef, p: Expr)
    requires WellFormed(r) && OwnColumnsOnly(r) && t in r.tables && p in PushedFilters(r, t)
    ensures r.query.where.Some? && p in Conjuncts(r.query.where.value) && LocalTo(r.query.scope, t.alias, p)
  {
    var q, aliases := r.query, QueryAliases(r.query);
    PushableMembers(r, OnlyAlias(WhereConjuncts(q), aliases, t.alias), TargetDialect(r, t.sourceId));
    OnlyAliasMembers(WhereConjuncts(q), aliases, t.alias);
    ConjunctColumns(q.where.value, p);
    QueryColumnParts(q);
    forall c | c in Columns(p) ensures AliasOf(q.scope, c) == t.alias && (c.table == "" || c.table == t.alias) {
      assert c in QueryColumns(q);
      if c.table != "" {
        assert c.table in PredicateAliases(p, aliases);
      }
    }
  }

  lemma {:induction false} AliasOfTable(r: Request, i: nat)
    requires WellFormed(r) && i < |r.tables|
    ensures |r.tables| == |QueryAliases(r.query)| && QueryAliases(r.query)[i] == r.tables[i].alias
    ensures FiltersOf(FiltersPushed(r, r.tables), r.tables[i].alias) ==
            ScanExprs(r.norm, r.bindings[r.tables[i].tableKey], r.tables[i].alias, PushedFilters(r, r.tables[i]))
  {
    forall j, k | 0 <= j < k < |r.tables| ensures r.tables[j].alias != r.tables[k].alias {
      assert QueryAliases(r.query)[j] != QueryAliases(r.query)[k];
    }
    FiltersPushedAt(r, r.tables, i);
  }

  /** The scan of a table keeps a row's tuple exactly when the row passes all the conjuncts pushed there. */
  lemma {:induction false} ScanAcceptsIffConjunctsHold(sem: Semantics, r: Request, row: Row, i: nat)
    requires WellFormed(r) && OwnColumnsOnly(r) && i < |r.tables|
    ensures var t := r.tables[i];
      AcceptsAlias(PushedKeep(sem, r), t.alias, TupleOf(row, t.alias)) <==>
      AllHold(sem, r.query.scope, row, PushedFilters(r, t))
  {
    var t := r.tables[i];
    var ps := PushedFilters(r, t);
    AliasOfTable(r, i);
    AliasListed(r, i);
    forall k | 0 <= k < |ps| ensures LocalTo(r.query.scope, t.alias, ps[k]) { PushedFilterIsLocal(r, t, ps[k]); }
    LocalConjunctsInScan(sem, r.query.scope, r.norm, r.bindings[t.tableKey], t.alias, row, ps);
  }

  lemma {:induction false} LocalConjunctsInScan(
    sem: Semantics, scope: Scope, norm: Norm, b: Binding, a: string, row: Row, ps: seq<Expr>)
    requires a != "" && norm("") == "" && forall k | 0 <= k < |ps| :: LocalTo(scope, a, ps[k])
    ensures Accepts(sem, ScanExprs(norm, b, a, ps), a, TupleOf(row, a)) <==> AllHold(sem, scope, row, ps)
  {
    var es, u := ScanExprs(norm, b, a, ps), TupleOf(row, a);
    forall k | 0 <= k < |ps|
      ensures Holds(sem, Always(a), map[a := u], es[k]) <==> Holds(sem, scope, row, ps[k])
    {
      ScanExprMeansTheSame(sem, scope, norm, b, a, row, ps[k]);
    }
  }

  /** A row that passes the WHERE clause passes, alias by alias, every filter pushed into a scan. */
  lemma {:induction false} WhereImpliesPushedFilters(sem: Semantics, r: Request, row: Row)
    requires WellFormed(r) && OwnColumnsOnly(r) && WhereHolds(sem, r.query, row)
    ensures RowOk(PushedKeep(sem, r), QueryAliases(r.query), row)
  {
    var aliases := QueryAliases(r.query);
    forall i | 0 <= i < |aliases| ensures AcceptsAlias(PushedKeep(sem, r), aliases[i], TupleOf(row, aliases[i])) {
      var t := r.tables[i];
      var ps := PushedFilters(r, t);
      AliasOfTable(r, i);
      forall k | 0 <= k < |ps| ensures Holds(sem, r.query.scope, row, ps[k]) {
        PushedFilterIsLocal(r, t, ps[k]);
        WhereHoldsIffConjunctsDo(sem, r.query.scope, row, r.query.where.value);
      }
      ScanAcceptsIffConjunctsHold(sem, r, row, i);
    }
  }

  lemma {:induction false} WhereImpliesKept(sem: Semantics, r: Request)
    requires WellFormed(r) && OwnColumnsOnly(r)
    ensures Implies(WhereTest(sem, r.query), QueryAliases(r.query), PushedKeep(sem, r))
  {
    forall row: Row | Passes(WhereTest(sem, r.query), row)
      ensures RowOk(PushedKeep(sem, r), QueryAliases(r.query), row)
    {
      WhereImpliesPushedFilters(sem, r, row);
    }
  }

  lemma {:induction false} WhereKeepsRows(sem: Semantics, q: Query, rows: seq<Row>)
    ensures KeepWhere(sem, q.scope, q.where, rows) == KeepRows(WhereTest(sem, q), rows)
  {
    if rows != [] { WhereKeepsRows(sem, q, rows[1..]); }
  }

  lemma {:induction false} ScanIsKeep(sem: Semantics, fs: Filters, ok: Keep, a: string, t: Table)
    requires forall u: Tuple :: AcceptsAlias(ok, a, u) <==> Accepts(sem, FiltersOf(fs, a), a, u)
    ensures FilterTable(sem, FiltersOf(fs, a), a, t) == KeepTable(ok, a, t)
  {
    if t != [] {
      ScanIsKeep(sem, fs, ok, a, t[1..]);
      assert AcceptsAlias(ok, a, t[0]) <==> Accepts(sem, FiltersOf(fs, a), a, t[0]);
    }
  }

  lemma {:induction false} ScansAreKeep(sem: Semantics, r: Request, tables: map<string, Table>)
    requires Bound(r)
    ensures FilterTables(sem, FiltersPushed(r, r.tables), tables) == KeepTables(PushedKeep(sem, r), tables)
  {
    var fs, ok := FiltersPushed(r, r.tables), PushedKeep(sem, r);
    forall a | a in tables ensures FilterTable(sem, FiltersOf(fs, a), a, tables[a]) == KeepTable(ok, a, tables[a]) {
      forall u: Tuple ensures AcceptsAlias(ok, a, u) <==> Accepts(sem, FiltersOf(fs, a), a, u) {}
      ScanIsKeep(sem, fs, ok, a, tables[a]);
    }
  }

  /** Filter pushdown keeps the meaning of the query, whatever its tables and ON predicates. */
  lemma {:induction false} FilterPushdownKeepsSelection(sem: Semantics, r: Request, tables: map<string, Table>)
    requires WellFormed(r) && OwnColumnsOnly(r) && SafePushdown(sem, r)
    ensures Select(sem, r.query, FilterTables(sem, FiltersPushed(r, r.tables), tables)) == Select(sem, r.query, tables)
  {
    var q, kept := r.query, KeepTables(PushedKeep(sem, r), tables);
    ScansAreKeep(sem, r, tables);
    WhereImpliesKept(sem, r);
    SafeChainKeepsRows(sem, q.scope, PushedKeep(sem, r), WhereTest(sem, q), q.from.alias, q.joins, tables);
    WhereKeepsRows(sem, q, JoinRows(sem, q.scope, q.from.alias, q.joins, tables));
    WhereKeepsRows(sem, q, JoinRows(sem, q.scope, q.from.alias, q.joins, kept));
  }

  // ----- when is pushdown safe? -----

  /** No join null-extends the alias. */
  predicate NeverNullExtended(base: string, joins: seq<Join>, a: string)
    decreases |joins|
  {
    joins == [] ||
    (var init, j := joins[..|joins| - 1], joins[|joins| - 1];
     if j.item.alias == a then j.kind.Inner? || j.kind.Right?
     else NeverNullExtended(base, init, a) && (j.kind.Inner? || j.kind.Left?))
  }

  lemma {:induction false} MoreNullsRejected(test: Test, all: seq<string>, nulls: seq<string>, i: nat)
    requires i < |nulls| && RejectsNulls(test, all, [nulls[i]])
    ensures RejectsNulls(test, all, nulls)
  {
    forall row: Row | RowOver(all, row) && NullOn(nulls, row) ensures !Passes(test, row) {
      assert TupleOf(row, nulls[i]) == map[] && NullOn([nulls[i]], row);
    }
  }

  /**
   * When for every alias the filters keep everything, or the test rejects NULL there, or no join
   * null-extends it, the chain is safe.
   */
  lemma {:induction false} NullRejectingChainIsSafe(
    ok: Keep, test: Test, all: seq<string>, base: string, joins: seq<Join>)
    requires Distinct(Aliases(base, joins))
    requires forall i | 0 <= i < |Aliases(base, joins)| ::
      var a := Aliases(base, joins)[i];
      AcceptsAll(ok, a) || RejectsNulls(test, all, [a]) || NeverNullExtended(base, joins, a)
    ensures Safe(ok, test, all, base, joins)
    decreases |joins|
  {
    if joins != [] {
      var init, j := joins[..|joins| - 1], joins[|joins| - 1];
      AliasesOfInit(base, joins);
      var chain, earlier := Aliases(base, joins), Aliases(base, init);
      forall i | 0 <= i < |earlier|
        ensures AcceptsAll(ok, earlier[i]) || RejectsNulls(test, all, [earlier[i]]) ||
          NeverNullExtended(base, init, earlier[i])
        ensures (j.kind.Right? || j.kind.Full?) ==>
          AcceptsAll(ok, earlier[i]) || RejectsNulls(test, all, earlier)
      {
        assert chain[i] == earlier[i] && earlier[i] in earlier;
        if RejectsNulls(test, all, [earlier[i]]) { MoreNullsRejected(test, all, earlier, i); }
      }
      NullRejectingChainIsSafe(ok, test, all, base, init);
      assert chain[|earlier|] == j.item.alias;
    }
  }

  /** An alias whose scan would drop the null tuple: WHERE rejects its null-extended rows. */
  lemma {:induction false} DroppedNullIsRejected(ok: Keep, test: Test, all: seq<string>, a: string)
    requires Implies(test, all, ok) && a in all && !AcceptsAlias(ok, a, map[])
    ensures RejectsNulls(test, all, [a])
  {
    var k :| 0 <= k < |all| && all[k] == a;
    forall row: Row | RowOver(all, row) && NullOn([a], row) ensures !Passes(test, row) {
      assert TupleOf(row, [a][0]) == map[];
      assert !RowOk(ok, all, row) by { assert !AcceptsAlias(ok, all[k], TupleOf(row, all[k])); }
    }
  }

  /**
   * Pushdown is safe when every alias with a pushed conjunct is never null-extended, or one of its
   * pushed conjuncts, or WHERE as a whole, rejects NULL there.
   */
  lemma {:induction false} NullRejectingIsSafe(sem: Semantics, r: Request)
    requires WellFormed(r) && OwnColumnsOnly(r)
    requires forall i | 0 <= i < |r.tables| ::
      var a := r.tables[i].alias;
      || PushedFilters(r, r.tables[i]) == [] || !AcceptsAlias(PushedKeep(sem, r), a, map[])
      || WhereRejectsNulls(sem, r.query, [a]) || NeverNullExtended(r.query.from.alias, r.query.joins, a)
    ensures SafePushdown(sem, r)
  {
    var aliases, ok, test := QueryAliases(r.query), PushedKeep(sem, r), WhereTest(sem, r.query);
    WhereImpliesKept(sem, r);
    forall i | 0 <= i < |aliases|
      ensures AcceptsAll(ok, aliases[i]) || RejectsNulls(test, aliases, [aliases[i]]) ||
        NeverNullExtended(r.query.from.alias, r.query.joins, aliases[i])
    {
      AliasOfTable(r, i);
      if PushedFilters(r, r.tables[i]) == [] { assert AcceptsAll(ok, aliases[i]); }
      if !AcceptsAlias(ok, aliases[i], map[]) { DroppedNullIsRejected(ok, test, aliases, aliases[i]); }
    }
    NullRejectingChainIsSafe(ok, test, aliases, r.query.from.alias, r.query.joins);
  }

  /** A column of one of these aliases. */
  predicate ColumnOf(scope: Scope, nulls: seq<string>, e: Expr) { e.Column? && AliasOf(scope, e.c) in nulls }

  /** A comparison with a column of one of the aliases, or a combination of such comparisons. */
  predicate Strict(scope: Scope, nulls: seq<string>, e: Expr) {
    match e
    case Compare(_, l, r) => ColumnOf(scope, nulls, l) || ColumnOf(scope, nulls, r)
    case And(l, r) => Strict(scope, nulls, l) || Strict(scope, nulls, r)
    case Or(l, r) => Strict(scope, nulls, l) && Strict(scope, nulls, r)
    case Paren(x) => Strict(scope, nulls, x)
    case _ => false
  }

  lemma {:induction false} StrictIsNotTrue(sem: Semantics, scope: Scope, nulls: seq<string>, row: Row, e: Expr)
    requires Strict(scope, nulls, e) && NullOn(nulls, row)
    ensures !Holds(sem, scope, row, e)
  {
    match e
    case Compare(_, l, r) =>
      var side := if ColumnOf(scope, nulls, l) then l else r;
      var i :| 0 <= i < |nulls| && nulls[i] == AliasOf(scope, side.c);
      assert Eval(sem, scope, row, side) == NullV;
    case And(l, r) => StrictIsNotTrue(sem, scope, nulls, row, if Strict(scope, nulls, l) then l else r);
    case Or(l, r) => StrictIsNotTrue(sem, scope, nulls, row, l); StrictIsNotTrue(sem, scope, nulls, row, r);
    case Paren(x) => StrictIsNotTrue(sem, scope, nulls, row, x);
  }

  /** One strict conjunct, pushed or not, makes WHERE reject the rows in which all these aliases are null-extended. */
  lemma {:induction false} StrictRejectsNulls(sem: Semantics, q: Query, p: Expr, nulls: seq<string>)
    requires q.where.Some? && p in Conjuncts(q.where.value) && Strict(q.scope, nulls, p)
    ensures WhereRejectsNulls(sem, q, nulls)
  {
    forall row: Row | NullOn(nulls, row) ensures !Passes(WhereTest(sem, q), row) {
      WhereHoldsIffConjunctsDo(sem, q.scope, row, q.where.value);
      StrictIsNotTrue(sem, q.scope, nulls, row, p);
      var k :| 0 <= k < |Conjuncts(q.where.value)| && Conjuncts(q.where.value)[k] == p;
    }
  }

  // ----- scans, then the local stage -----

  /** What a scan returns on the contents of its table. */
  function EvalScan(sem: Semantics, sql: SourceSql, t: Table): Table
    requires sql.ScanSql?
  {
    ProjectTable(sql.proj, FilterTable(sem, sql.filters, sql.alias, t))
  }

  /** The relation a table of the local stage stands for: relations are registered under bare names. */
  function RelationOf(t: FromItem, relations: map<string, Table>): Option<Table> {
    if t.catalog == "" && t.db == "" && t.name in relations then Some(relations[t.name]) else None
  }

  ghost predicate AllRegistered(items: seq<FromItem>, relations: map<string, Table>) {
    forall i | 0 <= i < |items| :: RelationOf(items[i], relations).Some?
  }

  /** The tables of the local stage, found by relation name and keyed by alias. */
  function LocalTables(items: seq<FromItem>, relations: map<string, Table>): map<string, Table> {
    if items == [] then map[]
    else
      var t := items[|items| - 1];
      var contents := RelationOf(t, relations);
      LocalTables(items[..|items| - 1], relations)[t.alias := if contents.Some? then contents.value else []]
  }

  function EvalLocal(sem: Semantics, q: Query, relations: map<string, Table>): Table {
    EvalQuery(sem, q, LocalTables(Items(q), relations))
  }

  ghost predicate SameTables(aliases: seq<string>, x: map<string, Table>, y: map<string, Table>) {
    forall i | 0 <= i < |aliases| :: TableOf(x, aliases[i]) == TableOf(y, aliases[i])
  }

  lemma {:induction false} SameTablesSameRows(
    sem: Semantics, scope: Scope, base: string, joins: seq<Join>, x: map<string, Table>, y: map<string, Table>)
    requires SameTables(Aliases(base, joins), x, y)
    ensures JoinRows(sem, scope, base, joins, x) == JoinRows(sem, scope, base, joins, y)
    decreases |joins|
  {
    var all := Aliases(base, joins);
    assert TableOf(x, all[|all| - 1]) == TableOf(y, all[|all| - 1]);
    if joins != [] {
      var init := Aliases(base, joins[..|joins| - 1]);
      forall i | 0 <= i < |init| ensures TableOf(x, init[i]) == TableOf(y, init[i]) { assert init[i] == all[i]; }
      SameTablesSameRows(sem, scope, base, joins[..|joins| - 1], x, y);
    }
  }

  lemma {:induction false} JoinItemsListed(joins: seq<Join>)
    ensures |JoinItems(joins)| == |joins| && forall i | 0 <= i < |joins| :: JoinItems(joins)[i] == joins[i].item
    decreases |joins|
  {
    if joins != [] { JoinItemsListed(joins[..|joins| - 1]); }
  }

  lemma {:induction false} RewrittenJoinAt(
    norm: Norm, lookup: map<string, string>, stageTables: map<string, string>, joins: seq<Join>, i: nat)
    requires i < |joins|
    ensures RewriteJoins(norm, lookup, stageTables, joins)[i].item == RewriteItem(stageTables, joins[i].item)
    decreases |joins|
  {
    if i < |joins| - 1 { RewrittenJoinAt(norm, lookup, stageTables, joins[..|joins| - 1], i); }
  }

  lemma {:induction false} RewrittenJoinsListed(
    norm: Norm, lookup: map<string, string>, stageTables: map<string, string>, joins: seq<Join>)
    ensures var joins' := RewriteJoins(norm, lookup, stageTables, joins);
      |joins'| == |joins| && forall i | 0 <= i < |joins| :: joins'[i].item == RewriteItem(stageTables, joins[i].item)
  {
    forall i | 0 <= i < |joins|
      ensures RewriteJoins(norm, lookup, stageTables, joins)[i].item == RewriteItem(stageTables, joins[i].item)
    {
      RewrittenJoinAt(norm, lookup, stageTables, joins, i);
    }
  }

  lemma {:induction false} AliasesListed(base: string, joins: seq<Join>)
    ensures |Aliases(base, joins)| == |joins| + 1 && Aliases(base, joins)[0] == base
    ensures forall i | 0 <= i < |joins| :: Aliases(base, joins)[i + 1] == joins[i].item.alias
    decreases |joins|
  {
    if joins != [] { AliasesListed(base, joins[..|joins| - 1]); }
  }

  lemma {:induction false} LocalTableOf(items: seq<FromItem>, relations: map<string, Table>, i: nat)
    requires i < |items| && forall j, k | 0 <= j < k < |items| :: items[j].alias != items[k].alias
    requires items[i].catalog == "" && items[i].db == ""
    ensures TableOf(LocalTables(items, relations), items[i].alias) == TableOf(relations, items[i].name)
  {
    if i < |items| - 1 { LocalTableOf(items[..|items| - 1], relations, i); }
  }

  /** Every table of the rewritten query is a stage output, written without schema or catalog. */
  lemma {:induction false} RewrittenItems(norm: Norm, lookup: map<string, string>, q: Query)
    ensures var items, aliases := Items(RewriteQuery(norm, lookup, StageTables(QueryAliases(q)), q)), QueryAliases(q);
      && |items| == |aliases|
      && forall i | 0 <= i < |items| :: items[i] == FromItem("", "", "scan_" + aliases[i], aliases[i])
  {
    var st := StageTables(QueryAliases(q));
    var q' := RewriteQuery(norm, lookup, st, q);
    var items, aliases := Items(q'), QueryAliases(q);
    RewrittenJoinsListed(norm, lookup, st, q.joins);
    JoinItemsListed(q'.joins);
    AliasesListed(q.from.alias, q.joins);
    forall i | 0 <= i < |items| ensures items[i] == FromItem("", "", StageIdOf(aliases[i]), aliases[i]) {
      assert aliases[i] in st;
      if i > 0 { assert items[i] == JoinItems(q'.joins)[i - 1]; }
    }
  }

  /** So they are all registered when the outputs are. */
  lemma {:induction false} RewrittenItemsRegistered(
    norm: Norm, lookup: map<string, string>, q: Query, relations: map<string, Table>)
    requires forall i | 0 <= i < |QueryAliases(q)| :: StageIdOf(QueryAliases(q)[i]) in relations
    ensures AllRegistered(Items(RewriteQuery(norm, lookup, StageTables(QueryAliases(q)), q)), relations)
  {
    RewrittenItems(norm, lookup, q);
  }

  lemma {:induction false} LocalTablesAreRelations(
    norm: Norm, lookup: map<string, string>, q: Query, relations: map<string, Table>, i: nat)
    requires Distinct(QueryAliases(q)) && i < |QueryAliases(q)|
    ensures var q' := RewriteQuery(norm, lookup, StageTables(QueryAliases(q)), q);
      TableOf(LocalTables(Items(q'), relations), QueryAliases(q)[i]) ==
        TableOf(relations, StageIdOf(QueryAliases(q)[i]))
  {
    var aliases, items := QueryAliases(q), Items(RewriteQuery(norm, lookup, StageTables(QueryAliases(q)), q));
    RewrittenItems(norm, lookup, q);
    forall j, k | 0 <= j < k < |items| ensures items[j].alias != items[k].alias { assert aliases[j] != aliases[k]; }
    LocalTableOf(items, relations, i);
  }

  lemma {:induction false} ProjectedTableOf(ps: Projs, tables: map<string, Table>, a: string)
    ensures TableOf(ProjectTables(ps, tables), a) == ProjectTable(ProjOf(ps, a), TableOf(tables, a))
  {
  }

  /** What the scan of one table returns is that table, filtered and projected. */
  lemma {:induction false} ScanIsFilteredAndProjected(sem: Semantics, r: Request, tables: map<string, Table>, i: nat)
    requires WellFormed(r) && i < |r.tables|
    ensures var a := r.tables[i].alias;
      EvalScan(sem, ScanOf(r, r.tables[i]).sql, TableOf(tables, a)) ==
      TableOf(ProjectTables(QueryProjections(r.query), FilterTables(sem, FiltersPushed(r, r.tables), tables)), a)
  {
    var t, fs, ps := r.tables[i], FiltersPushed(r, r.tables), QueryProjections(r.query);
    AliasListed(r, i);
    forall j, k | 0 <= j < k < |r.tables| ensures r.tables[j].alias != r.tables[k].alias {
      assert QueryAliases(r.query)[j] != QueryAliases(r.query)[k];
    }
    FiltersPushedAt(r, r.tables, i);
    FilteredTableOf(sem, fs, tables, t.alias);
    ProjectedTableOf(ps, FilterTables(sem, fs, tables), t.alias);
  }

  /**
   * The query of the local stage, over the outputs of the scans, selects what the original selects
   * over filtered tables.
   */
  lemma {:induction false} LocalStageSelectsFiltered(
    sem: Semantics, r: Request, lookup: map<string, string>, tables: map<string, Table>, relations: map<string, Table>)
    requires WellFormed(r) && IsLookup(r.norm, Items(r.query), lookup)
    requires forall i | 0 <= i < |r.tables| ::
      TableOf(relations, StageIdOf(r.tables[i].alias)) ==
        EvalScan(sem, ScanOf(r, r.tables[i]).sql, TableOf(tables, r.tables[i].alias))
    ensures var q' := SplitPlan(r, lookup).localSql.value;
      Select(sem, q', LocalTables(Items(q'), relations)) ==
      Select(sem, r.query, FilterTables(sem, FiltersPushed(r, r.tables), tables))
  {
    var q, aliases := r.query, QueryAliases(r.query);
    var q' := RewriteQuery(r.norm, lookup, StageTables(aliases), q);
    var filtered := FilterTables(sem, FiltersPushed(r, r.tables), tables);
    var reduced, local := ProjectTables(QueryProjections(q), filtered), LocalTables(Items(q'), relations);
    forall i | 0 <= i < |aliases| ensures TableOf(local, aliases[i]) == TableOf(reduced, aliases[i]) {
      assert aliases[i] == r.tables[i].alias;
      LocalTablesAreRelations(r.norm, lookup, q, relations, i);
      ScanIsFilteredAndProjected(sem, r, tables, i);
    }
    RewriteKeepsSelection(sem, r.norm, lookup, StageTables(aliases), q, local);
    SameTablesSameRows(sem, q.scope, q.from.alias, q.joins, local, reduced);
    ProjectionKeepsSelection(sem, q, filtered);
  }

  /**
   * Running the rewritten query over the outputs of the scans gives the value of the original query
   * over the tables.
   */
  lemma {:induction false} ScansThenLocalIsTheQuery(
    sem: Semantics, r: Request, lookup: map<string, string>, tables: map<string, Table>, relations: map<string, Table>)
    requires WellFormed(r) && OwnColumnsOnly(r) && SafePushdown(sem, r) && IsLookup(r.norm, Items(r.query), lookup)
    requires forall i | 0 <= i < |r.tables| ::
      TableOf(relations, StageIdOf(r.tables[i].alias)) ==
        EvalScan(sem, ScanOf(r, r.tables[i]).sql, TableOf(tables, r.tables[i].alias))
    ensures EvalLocal(sem, SplitPlan(r, lookup).localSql.value, relations) == EvalQuery(sem, r.query, tables)
  {
    LocalStageSelectsFiltered(sem, r, lookup, tables, relations);
    FilterPushdownKeepsSelection(sem, r, tables);
  }
}
