/** When filter pushdown changes the answer: the exact condition on queries, and a request it fails on. */
module PushdownExact {
  import opened Prelude
  import opened Sql
  import opened JoinFilter
  import opened JoinFilterExact
  import opened Projection
  import opened Renderer
  import opened Plans
  import opened Planner
  import opened PushdownProperties

  lemma {:induction false} ValuePerRow(sem: Semantics, scope: Scope, rows: seq<Row>, tops: seq<Expr>)
    ensures |EvalTops(sem, scope, rows, tops)| == |rows|
  {
    if rows != [] { ValuePerRow(sem, scope, rows[1..], tops); }
  }

  /** The query with other ON predicates. */
  function WithJoins(q: Query, joins: seq<Join>): Query { q.(joins := joins) }

  ghost predicate SelectionKept(sem: Semantics, r: Request, joins: seq<Join>, tables: map<string, Table>)
    requires Bound(r)
  {
    Select(sem, WithJoins(r.query, joins), FilterTables(sem, FiltersPushed(r, r.tables), tables)) ==
    Select(sem, WithJoins(r.query, joins), tables)
  }

  ghost predicate QueryRowsKept(sem: Semantics, r: Request, joins: seq<Join>, tables: map<string, Table>)
    requires Bound(r)
  {
    RowsKept(sem, r.query.scope, PushedKeep(sem, r), WhereTest(sem, r.query), r.query.from.alias, joins, tables)
  }

  /** What a query selects is kept when the rows that pass WHERE are, and is not when there are new ones. */
  lemma {:induction false} SelectionOfRows(sem: Semantics, r: Request, joins: seq<Join>, tables: map<string, Table>)
    requires Bound(r)
    ensures QueryRowsKept(sem, r, joins, tables) ==> SelectionKept(sem, r, joins, tables)
    ensures GainsRows(
      sem, r.query.scope, PushedKeep(sem, r), WhereTest(sem, r.query), r.query.from.alias, joins, tables) ==>
      !SelectionKept(sem, r, joins, tables)
  {
    var q, kept := WithJoins(r.query, joins), KeepTables(PushedKeep(sem, r), tables);
    ScansAreKeep(sem, r, tables);
    WhereKeepsRows(sem, r.query, JoinRows(sem, q.scope, q.from.alias, joins, tables));
    WhereKeepsRows(sem, r.query, JoinRows(sem, q.scope, q.from.alias, joins, kept));
    ValuePerRow(sem, q.scope, SelectedRows(sem, q, tables), q.tops);
    ValuePerRow(sem, q.scope, SelectedRows(sem, q, kept), q.tops);
  }

  /**
   * Pushdown keeps what the query selects, for all tables and all ON predicates, exactly when each
   * join is safe: the filters of the aliases that could cause new null-extended rows remove nothing,
   * or WHERE, pushed or not, rejects those rows.
   */
  lemma {:induction false} SafeIffSelectionKept(sem: Semantics, r: Request)
    requires WellFormed(r) && OwnColumnsOnly(r)
    ensures SafePushdown(sem, r) <==>
      forall joins, tables | SameShape(r.query.joins, joins) :: SelectionKept(sem, r, joins, tables)
  {
    var q, ok, test, base := r.query, PushedKeep(sem, r), WhereTest(sem, r.query), r.query.from.alias;
    WhereImpliesKept(sem, r);
    if SafePushdown(sem, r) {
      SafeIffRowsKept(sem, q.scope, ok, test, base, q.joins);
      forall joins, tables | SameShape(q.joins, joins) ensures SelectionKept(sem, r, joins, tables) {
        assert RowsKept(sem, q.scope, ok, test, base, joins, tables);
        SelectionOfRows(sem, r, joins, tables);
      }
    } else {
      var joins, tables := UnsafeChainGainsRows(sem, q.scope, ok, test, base, q.joins);
      SelectionOfRows(sem, r, joins, tables);
    }
  }

  // ----- the left join counterexample -----

  function X(table: string, name: string): Expr { Column(ColumnRef("", "", table, name)) }

  /** SELECT l.id FROM l LEFT JOIN r ON l.id = r.id WHERE r.x IS NULL */
  function MissingRows(): Query {
    Query(FromItem("", "", "l", "l"), [Join(Left, FromItem("", "", "r", "r"), Compare(Eq, X("l", "id"), X("r", "id")))],
          Some(IsNull(X("r", "x"))), [X("l", "id")], false, "", ByOwner(map[]))
  }

  lemma {:induction false} LeftJoinOfOneRow(
    sem: Semantics, scope: Scope, base: string, j: Join, tables: map<string, Table>, l: Tuple)
    requires j.kind.Left? && TableOf(tables, base) == [l]
    ensures JoinRows(sem, scope, base, [j], tables) ==
            Extend(sem, scope, Left, j.on, map[base := l], j.item.alias, TableOf(tables, j.item.alias))
  {
    var row: Row := map[base := l];
    assert [j][..0] == [] && [l][1..] == [] && [row][1..] == [];
    assert BaseRows(base, [l]) == [row];
    assert ExtendAll(sem, scope, Left, j.on, [row], j.item.alias, TableOf(tables, j.item.alias)) ==
           Extend(sem, scope, Left, j.on, row, j.item.alias, TableOf(tables, j.item.alias));
  }

  const ONE: Tuple := map["id" := IntV(1)]
  const ONE_WITH_X: Tuple := map["id" := IntV(1), "x" := IntV(5)]
  const ORDERS: map<string, Table> := map["l" := [ONE], "r" := [ONE_WITH_X]]

  lemma {:induction false} MissingRowsOverFullTables(sem: Semantics)
    ensures Select(sem, MissingRows(), ORDERS).values == []
  {
    var q := MissingRows();
    var full: Row := map["l" := ONE]["r" := ONE_WITH_X];
    assert "l"[0] != "r"[0] && |"x"| == 1 && |"id"| == 2;
    LeftJoinOfOneRow(sem, q.scope, "l", q.joins[0], ORDERS, ONE);
    assert [ONE_WITH_X][1..] == [] && [full][1..] == [];
    assert Holds(sem, q.scope, full, q.joins[0].on) by {
      assert Eval(sem, q.scope, full, X("l", "id")) == IntV(1) == Eval(sem, q.scope, full, X("r", "id"));
    }
    assert Matches(sem, q.scope, q.joins[0].on, map["l" := ONE], "r", [ONE_WITH_X]) == [full];
    assert !Holds(sem, q.scope, full, q.where.value) by {
      assert Eval(sem, q.scope, full, X("r", "x")) == IntV(5);
    }
    assert q.joins == [q.joins[0]] && KeepWhere(sem, q.scope, q.where, []) == [];
    assert KeepWhere(sem, q.scope, q.where, [full]) == [];
    assert SelectedRows(sem, q, ORDERS) == [];
  }

  lemma {:induction false} MissingRowsOverFilteredTables(sem: Semantics, tables: map<string, Table>)
    requires TableOf(tables, "l") == [ONE] && TableOf(tables, "r") == []
    ensures Select(sem, MissingRows(), tables).values == [[IntV(1)]]
  {
    var q := MissingRows();
    var none: Row := map["l" := ONE]["r" := map[]];
    assert "l"[0] != "r"[0] && |"x"| == 1 && |"id"| == 2;
    LeftJoinOfOneRow(sem, q.scope, "l", q.joins[0], tables, ONE);
    assert [none][1..] == [] && q.tops[1..] == [];
    assert Holds(sem, q.scope, none, q.where.value) by {
      assert Eval(sem, q.scope, none, X("r", "x")) == NullV;
    }
    assert q.joins == [q.joins[0]] && KeepWhere(sem, q.scope, q.where, []) == [];
    assert KeepWhere(sem, q.scope, q.where, [none]) == [none];
    assert Matches(sem, q.scope, q.joins[0].on, map["l" := ONE], "r", []) == [];
    assert SelectedRows(sem, q, tables) == [none];
    assert Eval(sem, q.scope, none, q.tops[0]) == IntV(1);
    assert EvalList(sem, q.scope, none, q.tops) == [IntV(1)];
    assert EvalTops(sem, q.scope, [none], q.tops) == [[IntV(1)]];
  }

  // ----- the request -----

  function Same(s: string): string { s }

  function PlainBinding(table: string, source: string): Binding {
    Binding(table, source, None, None, None, table, None, None, None, "", false, None, "", None, None)
  }

  /** The query over two sources, so that it is not pushed down whole. */
  function MissingRowsRequest(): Request {
    var left, right := PlainBinding("l", "left"), PlainBinding("r", "right");
    Request(MissingRows(), [RefOf("l", left), RefOf("r", right)],
            map["l" := left, "r" := right], map[], "duckdb", Same, map[])
  }

  lemma {:induction false} MissingRowsAliases()
    ensures QueryAliases(MissingRows()) == ["l", "r"] && Distinct(["l", "r"]) && Items(MissingRows())[0].alias == "l"
    ensures MissingRowsRequest().tables[0].alias == "l" && MissingRowsRequest().tables[1].alias == "r"
    ensures IdsOf(MissingRowsRequest().tables) == ["l", "r"] && "l" != "r"
  {
    assert MissingRows().joins[..0] == [] && "l"[0] != "r"[0];
    var ids := IdsOf(MissingRowsRequest().tables);
    assert ids[0] == "l" && ids[1] == "r";
  }

  /** Only `r.x IS NULL` is pushed, into the scan of `r`. */
  lemma {:induction false} MissingRowsPushed()
    ensures PushedFilters(MissingRowsRequest(), MissingRowsRequest().tables[0]) == []
    ensures PushedFilters(MissingRowsRequest(), MissingRowsRequest().tables[1]) == [IsNull(X("r", "x"))]
  {
    var r, p := MissingRowsRequest(), IsNull(X("r", "x"));
    MissingRowsAliases();
    assert WhereConjuncts(r.query) == [p] && [p][1..] == [];
    assert Columns(p) == [ColumnRef("", "", "r", "x")];
    assert PredicateAliases(p, ["l", "r"]) == {"r"};
    assert "l" !in {"r"} && "r" in {"r"};
    assert OnlyAlias([], ["l", "r"], "l") == [] && OnlyAlias([], ["l", "r"], "r") == [];
    assert OnlyAlias([p], ["l", "r"], "l") == [] && OnlyAlias([p], ["l", "r"], "r") == [p];
  }

  lemma {:induction false} MissingRowsPlain(lookup: map<string, string>)
    requires IsLookup(Same, Items(MissingRows()), lookup)
    ensures PlainQuery(Same, MissingRows())
  {
    var q := MissingRows();
    MissingRowsAliases();
    MissingRowsColumns();
    forall c | c in QueryColumns(q) ensures PlainColumn(Same, q, c) { NoSchemaIsPlain(Same, q, lookup, c); }
  }

  lemma {:induction false} MissingRowsOwnColumns()
    ensures OwnColumnsOnly(MissingRowsRequest())
  {
    MissingRowsAliases();
    MissingRowsColumns();
    QualifiedColumnsAreOwn(MissingRowsRequest());
  }

  lemma {:induction false} MissingRowsWellFormed(lookup: map<string, string>)
    requires IsLookup(Same, Items(MissingRows()), lookup)
    ensures WellFormed(MissingRowsRequest()) && OwnColumnsOnly(MissingRowsRequest())
  {
    MissingRowsAliases();
    MissingRowsPlain(lookup);
    MissingRowsOwnColumns();
  }

  lemma {:induction false} MissingRowsColumns()
    ensures forall c | c in QueryColumns(MissingRows()) ::
      c.db == "" && c.name != "" && c.table != "" && c.table in ["l", "r"]
  {
    var q := MissingRows();
    assert q.joins[..0] == [] && q.tops[1..] == [];
    assert OnColumns(q.joins) == Columns(q.joins[0].on);
    assert ColumnsOfAll(q.tops) == Columns(q.tops[0]);
  }

  lemma {:induction false} MissingRowsFilters(lookup: map<string, string>)
    requires IsLookup(Same, Items(MissingRows()), lookup)
    ensures var fs := FiltersPushed(MissingRowsRequest(), MissingRowsRequest().tables);
      FiltersOf(fs, "l") == [] && FiltersOf(fs, "r") == [IsNull(X("r", "x"))]
  {
    MissingRowsPushed();
    MissingRowsAliases();
    MissingRowsWellFormed(lookup);
    NothingToScan(MissingRowsRequest(), 0);
    NullTestToScan(MissingRowsRequest());
  }

  lemma {:induction false} NullTestToScan(r: Request)
    requires WellFormed(r) && |r.tables| == 2 && r.tables[1].alias == "r" && r.norm("") == ""
    requires PushedFilters(r, r.tables[1]) == [IsNull(X("r", "x"))]
    ensures FiltersOf(FiltersPushed(r, r.tables), "r") == [IsNull(X("r", "x"))]
  {
    AliasOfTable(r, 1);
    NullTestInScan(r.norm, r.bindings[r.tables[1].tableKey]);
    var scanned := FiltersOf(FiltersPushed(r, r.tables), "r");
    assert scanned[0] == ScanExpr(r.norm, r.bindings[r.tables[1].tableKey], "r", IsNull(X("r", "x")));
  }

  lemma {:induction false} NullTestInScan(norm: Norm, b: Binding)
    requires norm("") == ""
    ensures ScanExpr(norm, b, "r", IsNull(X("r", "x"))) == IsNull(X("r", "x"))
  {
    assert ScanColumn(norm, b, "r", ColumnRef("", "", "r", "x")) == ColumnRef("", "", "r", "x");
  }

  lemma {:induction false} NothingToScan(r: Request, i: nat)
    requires WellFormed(r) && i < |r.tables| && PushedFilters(r, r.tables[i]) == []
    ensures FiltersOf(FiltersPushed(r, r.tables), r.tables[i].alias) == []
  {
    AliasOfTable(r, i);
  }

  lemma {:induction false} MissingRowsFiltered(sem: Semantics, lookup: map<string, string>)
    requires IsLookup(Same, Items(MissingRows()), lookup)
    ensures TableOf(MissingRowsScanned(sem), "l") == [ONE] && TableOf(MissingRowsScanned(sem), "r") == []
  {
    MissingRowsFilters(lookup);
    NullTestFiltered(sem, FiltersPushed(MissingRowsRequest(), MissingRowsRequest().tables));
  }

  lemma {:induction false} NullTestFiltered(sem: Semantics, fs: Filters)
    requires FiltersOf(fs, "l") == [] && FiltersOf(fs, "r") == [IsNull(X("r", "x"))]
    ensures TableOf(FilterTables(sem, fs, ORDERS), "l") == [ONE] && TableOf(FilterTables(sem, fs, ORDERS), "r") == []
  {
    FilteredTableOf(sem, fs, ORDERS, "l");
    FilteredTableOf(sem, fs, ORDERS, "r");
    assert "l"[0] != "r"[0];
    NullTestFilters(sem);
  }

  lemma {:induction false} NullTestFilters(sem: Semantics)
    ensures FilterTable(sem, [], "l", [ONE]) == [ONE]
    ensures FilterTable(sem, [IsNull(X("r", "x"))], "r", [ONE_WITH_X]) == []
  {
    var p := IsNull(X("r", "x"));
    assert [ONE][1..] == [] && [ONE_WITH_X][1..] == [];
    assert Eval(sem, Always("r"), map["r" := ONE_WITH_X], X("r", "x")) == IntV(5);
    assert !Holds(sem, Always("r"), map["r" := ONE_WITH_X], [p][0]);
  }

  /**
   * The planner splits this request, pushes `r.x IS NULL` below the left join, and the local stage
   * over the scans' outputs selects a row, where the query over the tables selects none.
   */
  lemma {:induction false} LeftJoinIsNullBreaksPushdown(
    sem: Semantics, lookup: map<string, string>, relations: map<string, Table>)
    requires IsLookup(Same, Items(MissingRows()), lookup)
    requires forall i | 0 <= i < 2 ::
      var t := MissingRowsRequest().tables[i];
      TableOf(relations, StageIdOf(t.alias)) ==
        EvalScan(sem, ScanOf(MissingRowsRequest(), t).sql, TableOf(ORDERS, t.alias))
    ensures var r := MissingRowsRequest();
      && WellFormed(r) && OwnColumnsOnly(r) && !FullPushdown(r) && !SafePushdown(sem, r)
      && Select(sem, r.query, ORDERS).values == []
      && var q' :=
        SplitPlan(r, lookup).localSql.value; Select(sem, q', LocalTables(Items(q'), relations)).values == [[IntV(1)]]
  {
    var r := MissingRowsRequest();
    MissingRowsWellFormed(lookup);
    MissingRowsAnswers(sem, lookup);
    MissingRowsUnsafe(sem, lookup);
    LocalStageSelectsFiltered(sem, r, lookup, ORDERS, relations);
    TwoSources();
  }

  lemma {:induction false} MissingRowsAnswers(sem: Semantics, lookup: map<string, string>)
    requires IsLookup(Same, Items(MissingRows()), lookup)
    ensures Select(sem, MissingRows(), ORDERS).values == []
    ensures Select(sem, MissingRows(), MissingRowsScanned(sem)).values == [[IntV(1)]]
  {
    MissingRowsOverFullTables(sem);
    MissingRowsFiltered(sem, lookup);
    MissingRowsOverFilteredTables(sem, MissingRowsScanned(sem));
  }

  function MissingRowsScanned(sem: Semantics): map<string, Table> {
    FilterTables(sem, FiltersPushed(MissingRowsRequest(), MissingRowsRequest().tables), ORDERS)
  }

  lemma {:induction false} MissingRowsUnsafe(sem: Semantics, lookup: map<string, string>)
    requires IsLookup(Same, Items(MissingRows()), lookup)
    ensures !SafePushdown(sem, MissingRowsRequest())
  {
    MissingRowsWellFormed(lookup);
    MissingRowsAnswers(sem, lookup);
    if SafePushdown(sem, MissingRowsRequest()) {
      FilterPushdownKeepsSelection(sem, MissingRowsRequest(), ORDERS);
      assert false;
    }
  }

  lemma {:induction false} TwoSources()
    ensures !FullPushdown(MissingRowsRequest())
  {
    var r := MissingRowsRequest();
    var sources := set i | 0 <= i < |r.tables| :: r.tables[i].sourceId;
    assert r.tables[0].sourceId in sources && r.tables[1].sourceId in sources;
    assert "left"[0] != "right"[0];
    if |sources| == 1 { SingleExists(sources); }
  }
}
