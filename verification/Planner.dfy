/** From a parsed query to source scans and a local stage: what is pushed where, and that nothing is lost. */
module Planner {
  import opened Prelude
  import opened Dag
  import opened Sql
  import opened JoinFilter
  import opened Projection
  import opened Renderer
  import opened Plans
  import J = JoinOrder

  // ----- predicates of the WHERE clause -----

  /** `split_conjunctive_predicates`: an AND in parentheses is not split. */
  function Conjuncts(e: Expr): seq<Expr> {
    if e.And? then Conjuncts(e.l) + Conjuncts(e.r) else [e]
  }

  function WhereConjuncts(q: Query): seq<Expr> {
    if q.where.None? then [] else Conjuncts(q.where.value)
  }

  /** `predicate_aliases`: unqualified columns and unknown qualifiers do not count. */
  function PredicateAliases(e: Expr, aliases: seq<string>): set<string> {
    set c | c in Columns(e) && c.table in aliases :: c.table
  }

  /** The cross-dialect whitelist: no nested AND, and no function but IN and unary minus. */
  predicate IsSimple(e: Expr) {
    match e
    case Column(_) => true
    case Literal(_) => true
    case Compare(_, l, r) => IsSimple(l) && IsSimple(r)
    case And(_, _) => false
    case Or(l, r) => IsSimple(l) && IsSimple(r)
    case Not(x) => IsSimple(x)
    case IsNull(x) => IsSimple(x)
    case Paren(x) => IsSimple(x)
    case Call(fn, l, r) => fn in {"in", "neg"} && IsSimple(l) && IsSimple(r)
  }

  function Dialect(norm: Norm, name: string): string { if norm(name) == "" then "tsql" else norm(name) }

  predicate CanPush(norm: Norm, p: Expr, input: string, target: string) {
    Dialect(norm, target) == Dialect(norm, input) || IsSimple(p)
  }

  // The planner's inputs; `tables` lists the aliases of the query in order, `rows` are the row
  // counts known from earlier runs, by table.
  datatype Request = Request(
    query: Query, tables: seq<TableRef>, bindings: map<string, Binding>,
    dialects: map<string, string>, inputDialect: string, norm: Norm, rows: map<string, real>)

  function TargetDialect(r: Request, sourceId: string): string {
    if sourceId in r.dialects then r.dialects[sourceId] else r.inputDialect
  }

  function OnlyAlias(ps: seq<Expr>, aliases: seq<string>, a: string): seq<Expr> {
    if ps == [] then []
    else (if PredicateAliases(ps[0], aliases) == {a} then [ps[0]] else []) + OnlyAlias(ps[1..], aliases, a)
  }

  function Pushable(r: Request, ps: seq<Expr>, target: string): seq<Expr> {
    if ps == [] then []
    else (if CanPush(r.norm, ps[0], r.inputDialect, target) then [ps[0]] else []) + Pushable(r, ps[1..], target)
  }

  /** The predicate map: each alias with the conjuncts that mention only it. */
  method BuildPredicateMap(ps: seq<Expr>, aliases: seq<string>) returns (m: map<string, seq<Expr>>)
    ensures m == map a | a in aliases :: OnlyAlias(ps, aliases, a)
  {
    m := map a | a in aliases :: [];
    for i := 0 to |ps|
      invariant m.Keys == set a | a in aliases
      invariant forall a | a in m :: m[a] == OnlyAlias(ps[..i], aliases, a)
    {
      assert ps[..i + 1] == ps[..i] + [ps[i]];
      forall a ensures OnlyAlias(ps[..i + 1], aliases, a) ==
        OnlyAlias(ps[..i], aliases, a) + if PredicateAliases(ps[i], aliases) == {a} then [ps[i]] else []
      {
        OnlyAliasOneMore(ps[..i], ps[i], aliases, a);
      }
      var refs := PredicateAliases(ps[i], aliases);
      if |refs| == 1 {
        var a := Single(refs);
        assert a in refs;
        m := m[a := m[a] + [ps[i]]];
      } else {
        assert forall a :: refs != {a};
      }
    }
    assert ps[..|ps|] == ps;
  }

  lemma {:induction false} OnlyAliasOneMore(ps: seq<Expr>, p: Expr, aliases: seq<string>, a: string)
    ensures OnlyAlias(ps + [p], aliases, a) ==
      OnlyAlias(ps, aliases, a) + if PredicateAliases(p, aliases) == {a} then [p] else []
  {
    if ps == [] {
      assert [p][1..] == [];
    } else {
      OnlyAliasOneMore(ps[1..], p, aliases, a);
      assert (ps + [p])[1..] == ps[1..] + [p];
    }
  }

  // ----- scans -----

  /** `str(value)`: an absent value prints as None, and takes part in the comparisons below as that word. */
  function Str(o: Option<string>): string { if o.Some? then o.value else "None" }

  /** `metadata.get(key, default)`: an entry that is present counts, even without a value. */
  function Overridden(entry: Option<Option<string>>, default: Option<string>): Option<string> {
    if entry.Some? then entry.value else default
  }

  /** `metadata.get(key)` */
  function Given(entry: Option<Option<string>>): Option<string> { Overridden(entry, None) }

  function PhysicalCatalog(b: Binding): Option<string> { Overridden(b.physicalCatalog, b.catalog) }

  function PhysicalSchema(b: Binding): Option<string> { Overridden(b.physicalSchema, b.schema) }

  function PhysicalTable(b: Binding): Option<string> { Overridden(b.physicalTable, Some(b.table)) }

  /** `value or None`, as the parts of a table name are written. */
  function Part(o: Option<string>): string { if o.Some? then o.value else "" }

  /** `_rewrite_filter_for_scan`, for one column: schema and catalog go, and a known table name becomes the alias. */
  function ScanColumn(norm: Norm, b: Binding, a: string, c: ColumnRef): ColumnRef {
    var table, schema, catalog := norm(c.table), norm(c.db), norm(c.catalog);
    var schemas := {norm(Str(b.schema)), norm(Str(PhysicalSchema(b)))} - {""};
    var catalogs := {norm(Str(b.catalog)), norm(Str(PhysicalCatalog(b)))} - {""};
    var rebind :=
      && table != "" && table in {norm(a), norm(b.tableKey), norm(b.table), norm(Str(PhysicalTable(b)))}
      && !(schema != "" && schemas != {} && schema !in schemas)
      && !(catalog != "" && catalogs != {} && catalog !in catalogs);
    ColumnRef("", "", if rebind then a else c.table, c.name)
  }

  function ScanExpr(norm: Norm, b: Binding, a: string, e: Expr): Expr {
    match e
    case Column(c) => Column(ScanColumn(norm, b, a, c))
    case Literal(_) => e
    case Compare(op, l, r) => Compare(op, ScanExpr(norm, b, a, l), ScanExpr(norm, b, a, r))
    case And(l, r) => And(ScanExpr(norm, b, a, l), ScanExpr(norm, b, a, r))
    case Or(l, r) => Or(ScanExpr(norm, b, a, l), ScanExpr(norm, b, a, r))
    case Not(x) => Not(ScanExpr(norm, b, a, x))
    case IsNull(x) => IsNull(ScanExpr(norm, b, a, x))
    case Paren(x) => Paren(ScanExpr(norm, b, a, x))
    case Call(fn, l, r) => Call(fn, ScanExpr(norm, b, a, l), ScanExpr(norm, b, a, r))
  }

  function ScanExprs(norm: Norm, b: Binding, a: string, es: seq<Expr>): (r: seq<Expr>)
    ensures |r| == |es| && forall i | 0 <= i < |es| :: r[i] == ScanExpr(norm, b, a, es[i])
  {
    if es == [] then [] else [ScanExpr(norm, b, a, es[0])] + ScanExprs(norm, b, a, es[1..])
  }

  /** `rstrip(";")` */
  function WithoutSemicolons(s: string): string {
    if s != "" && s[|s| - 1] == ';' then WithoutSemicolons(s[..|s| - 1]) else s
  }

  function ScanSourceOf(b: Binding): ScanSource {
    if !Prelude.Blank(b.physicalSql) then Subquery(WithoutSemicolons(Strip(b.physicalSql)))
    else Physical(
      if b.skipCatalog then "" else Part(PhysicalCatalog(b)), Part(PhysicalSchema(b)), Part(PhysicalTable(b)))
  }

  function StageIdOf(a: string): StageId { "scan_" + a }

  predicate Bound(r: Request) { forall i | 0 <= i < |r.tables| :: r.tables[i].tableKey in r.bindings }

  function PushedFilters(r: Request, t: TableRef): seq<Expr> {
    Pushable(r, OnlyAlias(WhereConjuncts(r.query), QueryAliases(r.query), t.alias), TargetDialect(r, t.sourceId))
  }

  /** A scan from what was collected for its alias: the required columns and the conjuncts on it alone. */
  function BuildScan(
    r: Request, t: TableRef, required: set<string>, hasUnqualified: bool, predicates: seq<Expr>): Subplan
    requires t.tableKey in r.bindings
  {
    var b, pushed := r.bindings[t.tableKey], Pushable(r, predicates, TargetDialect(r, t.sourceId));
    Subplan(StageIdOf(t.alias), t.sourceId, t.alias, t.tableKey,
      ScanSql(
        ScanSourceOf(b), t.alias, ScanProjection(required, hasUnqualified), ScanExprs(r.norm, b, t.alias, pushed)))
  }

  /** The scan of one table of the query. */
  function ScanOf(r: Request, t: TableRef): Subplan
    requires t.tableKey in r.bindings
  {
    var q, aliases := r.query, QueryAliases(r.query);
    BuildScan(r, t, RequiredFor(q.star, QueryColumns(q), t.alias), HasUnqualified(QueryColumns(q)),
              OnlyAlias(WhereConjuncts(q), aliases, t.alias))
  }

  function Scans(r: Request, tables: seq<TableRef>): (scans: seq<Subplan>)
    requires forall i | 0 <= i < |tables| :: tables[i].tableKey in r.bindings
    ensures |scans| == |tables|
  {
    if tables == [] then []
    else Scans(r, tables[..|tables| - 1]) + [ScanOf(r, tables[|tables| - 1])]
  }

  // ----- full pushdown -----

  predicate NeedsScanRewrite(b: Binding) {
    || b.physicalSql != "" || b.skipCatalog
    || (Given(b.physicalCatalog).Some? && Given(b.physicalCatalog) != b.catalog)
    || (Given(b.physicalSchema).Some? && Given(b.physicalSchema) != b.schema)
    || (Given(b.physicalTable).Some? && Given(b.physicalTable) != Some(b.table))
  }

  predicate NeedsLogicalRewrite(norm: Norm, b: Binding) {
    var logical := {norm(b.tableKey), norm(Str(b.datasetAlias))} - {""};
    var physical := {norm(b.table), norm(Str(Given(b.physicalTable)))} - {""};
    logical != {} && physical != {} && !(logical <= physical)
  }

  /** A source that states no dialect counts as the default one here, and as the query's own for its scans. */
  function OwnDialect(r: Request, sourceId: string): string {
    if sourceId in r.dialects then r.dialects[sourceId] else ""
  }

  predicate FullPushdown(r: Request)
    requires Bound(r)
  {
    && |set i | 0 <= i < |r.tables| :: r.tables[i].sourceId| == 1
    && forall i | 0 <= i < |r.tables| ::
         var b := r.bindings[r.tables[i].tableKey];
         && !NeedsScanRewrite(b) && !NeedsLogicalRewrite(r.norm, b)
         && Dialect(r.norm, OwnDialect(r, r.tables[i].sourceId)) == Dialect(r.norm, r.inputDialect)
  }

  // ----- optimizing and building the physical plan -----

  datatype Optimized = Optimized(subplans: seq<Subplan>, localSql: Option<Query>)

  function StageTables(aliases: seq<string>): map<string, string> { map a | a in aliases :: StageIdOf(a) }

  lemma {:induction false} ScanIsBuilt(
    r: Request, t: TableRef, required: map<string, set<string>>, hasUnqualified: bool,
    predicates: map<string, seq<Expr>>)
    requires t.tableKey in r.bindings && t.alias in QueryAliases(r.query)
    requires required == Required(r.query.star, QueryColumns(r.query), QueryAliases(r.query))
    requires hasUnqualified == HasUnqualified(QueryColumns(r.query))
    requires predicates ==
      map a | a in QueryAliases(r.query) :: OnlyAlias(WhereConjuncts(r.query), QueryAliases(r.query), a)
    ensures BuildScan(r, t, required[t.alias], hasUnqualified, predicates[t.alias]) == ScanOf(r, t)
  {
  }

  predicate CollectedFor(
    r: Request, tables: seq<TableRef>, required: map<string, set<string>>, predicates: map<string, seq<Expr>>)
  {
    forall i | 0 <= i < |tables| ::
      tables[i].tableKey in r.bindings && tables[i].alias in required && tables[i].alias in predicates
  }

  function BuiltScans(
    r: Request, tables: seq<TableRef>, required: map<string, set<string>>, hasUnqualified: bool,
    predicates: map<string, seq<Expr>>): seq<Subplan>
    requires CollectedFor(r, tables, required, predicates)
  {
    if tables == [] then []
    else
      var t := tables[|tables| - 1];
      BuiltScans(r, tables[..|tables| - 1], required, hasUnqualified, predicates) +
      [BuildScan(r, t, required[t.alias], hasUnqualified, predicates[t.alias])]
  }

  lemma {:induction false} ScansAreBuilt(
    r: Request, tables: seq<TableRef>, required: map<string, set<string>>, hasUnqualified: bool,
    predicates: map<string, seq<Expr>>)
    requires CollectedFor(r, tables, required, predicates)
    requires forall i | 0 <= i < |tables| :: tables[i].alias in QueryAliases(r.query)
    requires required == Required(r.query.star, QueryColumns(r.query), QueryAliases(r.query))
    requires hasUnqualified == HasUnqualified(QueryColumns(r.query))
    requires predicates ==
      map a | a in QueryAliases(r.query) :: OnlyAlias(WhereConjuncts(r.query), QueryAliases(r.query), a)
    ensures BuiltScans(r, tables, required, hasUnqualified, predicates) == Scans(r, tables)
  {
    if tables != [] {
      ScansAreBuilt(r, tables[..|tables| - 1], required, hasUnqualified, predicates);
      ScanIsBuilt(r, tables[|tables| - 1], required, hasUnqualified, predicates);
    }
  }

  /** One scan for every table, from what was collected for its alias. */
  method BuildScans(
    r: Request, required: map<string, set<string>>, hasUnqualified: bool, predicates: map<string, seq<Expr>>)
    returns (subplans: seq<Subplan>)
    requires CollectedFor(r, r.tables, required, predicates)
    ensures subplans == BuiltScans(r, r.tables, required, hasUnqualified, predicates)
  {
    subplans := [];
    for i := 0 to |r.tables|
      invariant subplans == BuiltScans(r, r.tables[..i], required, hasUnqualified, predicates)
    {
      var t := r.tables[i];
      assert r.tables[..i + 1][..i] == r.tables[..i];
      subplans := subplans + [BuildScan(r, t, required[t.alias], hasUnqualified, predicates[t.alias])];
    }
    assert r.tables[..|r.tables|] == r.tables;
  }

  // ----- join order -----

  function JoinedAliases(joins: seq<Join>): (r: seq<string>)
    ensures |r| == |joins| && forall i | 0 <= i < |r| :: r[i] == joins[i].item.alias
  {
    seq(|joins|, i requires 0 <= i < |joins| => joins[i].item.alias)
  }

  function EstimatesOf(tables: seq<TableRef>, rows: map<string, real>): J.Estimates {
    if tables == [] then map[]
    else
      var t, init := tables[|tables| - 1], EstimatesOf(tables[..|tables| - 1], rows);
      if t.tableKey in rows then init[t.alias := rows[t.tableKey]] else init - {t.alias}
  }

  /** The orders the planner may choose for this request. */
  ghost predicate PlannedOrder(r: Request, order: seq<string>) {
    J.Chosen(
      QueryAliases(r.query), J.ChainJoins(r.query.from.alias, JoinedAliases(r.query.joins)),
      EstimatesOf(r.tables, r.rows), order)
  }

  /** The estimate of an alias is the row count known for its table. */
  lemma {:induction false} EstimateOfAlias(tables: seq<TableRef>, rows: map<string, real>, i: nat)
    requires i < |tables| && forall j, k | 0 <= j < k < |tables| :: tables[j].alias != tables[k].alias
    ensures var est, t := EstimatesOf(tables, rows), tables[i];
      (t.alias in est <==> t.tableKey in rows) && (t.tableKey in rows ==> est[t.alias] == rows[t.tableKey])
  {
    if i < |tables| - 1 { EstimateOfAlias(tables[..|tables| - 1], rows, i); }
  }

  /** A planned order starts at a smallest table and grows along the joins by its smaller neighbour. */
  lemma {:induction false} PlannedOrderGrows(r: Request, order: seq<string>)
    requires Distinct(QueryAliases(r.query)) && PlannedOrder(r, order)
    ensures forall a | a in QueryAliases(r.query) :: J.NoLarger(EstimatesOf(r.tables, r.rows), order[0], a)
    ensures forall k | 1 <= k < |order| ::
      J.GrowsBySmallerNeighbour(QueryAliases(r.query), EstimatesOf(r.tables, r.rows), order, k)
  {
    var base, items, est := r.query.from.alias, JoinedAliases(r.query.joins), EstimatesOf(r.tables, r.rows);
    AliasesAreChain(base, r.query.joins);
    J.StartsSmallest(QueryAliases(r.query), J.ChainJoins(base, items), est, order);
    J.ParserOrderGrowsASegment(base, items, est, order);
  }

  lemma {:induction false} AliasesAreChain(base: string, joins: seq<Join>)
    ensures Aliases(base, joins) == [base] + JoinedAliases(joins)
    decreases |joins|
  {
    if joins != [] { AliasesAreChain(base, joins[..|joins| - 1]); }
  }

  /** `FederatedOptimizer.optimize`, without the join strategies. */
  method Optimize(r: Request) returns (o: Optimized, order: seq<string>, ghost lookup: map<string, string>)
    requires Bound(r) && r.tables != []
    requires IdsOf(r.tables) == QueryAliases(r.query) && Distinct(QueryAliases(r.query))
    ensures IsLookup(r.norm, Items(r.query), lookup)
    ensures o == if FullPushdown(r) then FullPlan(r) else SplitPlan(r, lookup)
    ensures if FullPushdown(r) then order == [r.query.from.alias] else PlannedOrder(r, order)
  {
    var found := BuildTableAliasLookup(r.norm, Items(r.query));
    lookup := found;
    var aliases := QueryAliases(r.query);
    var required, hasUnqualified := ExtractRequiredColumns(r.query.star, QueryColumns(r.query), aliases);
    var predicates := BuildPredicateMap(WhereConjuncts(r.query), aliases);
    if FullPushdown(r) {
      return FullPlan(r), [r.query.from.alias], lookup;
    }
    forall i | 0 <= i < |r.tables| ensures r.tables[i].alias in aliases { AliasListed(r, i); }
    var subplans := BuildScans(r, required, hasUnqualified, predicates);
    ScansAreBuilt(r, r.tables, required, hasUnqualified, predicates);
    var base, items := r.query.from.alias, JoinedAliases(r.query.joins);
    AliasesAreChain(base, r.query.joins);
    order := J.ChooseJoinOrder(aliases, J.ChainJoins(base, items), EstimatesOf(r.tables, r.rows));
    o := Optimized(subplans, Some(RewriteQuery(r.norm, found, StageTables(aliases), r.query)));
  }

  function IdsOf(tables: seq<TableRef>): (ids: seq<string>)
    ensures |ids| == |tables| && forall i | 0 <= i < |ids| :: ids[i] == tables[i].alias
  {
    if tables == [] then [] else IdsOf(tables[..|tables| - 1]) + [tables[|tables| - 1].alias]
  }

  lemma {:induction false} AliasListed(r: Request, i: nat)
    requires IdsOf(r.tables) == QueryAliases(r.query) && i < |r.tables|
    ensures r.tables[i].alias in QueryAliases(r.query)
  {
  }

  function FullPlan(r: Request): Optimized
    requires r.tables != []
  {
    var t := r.tables[0];
    Optimized([Subplan("scan_full_query", t.sourceId, t.alias, t.tableKey, FullSql(r.query))], None)
  }

  function SplitPlan(r: Request, lookup: map<string, string>): Optimized
    requires Bound(r)
  {
    Optimized(Scans(r, r.tables), Some(RewriteQuery(r.norm, lookup, StageTables(QueryAliases(r.query)), r.query)))
  }

  const FINAL_STAGE: StageId := "local_compute_final"
  const RETRY_LIMIT: int := 2

  function ScanStage(s: Subplan, kind: StageKind): StageDef {
    StageDef(s.stageId, kind, [], s.sourceId, Some(s), None, "", RETRY_LIMIT, map[])
  }

  function ScanStages(subplans: seq<Subplan>): (stages: seq<StageDef>)
    ensures |stages| == |subplans| && forall i | 0 <= i < |stages| :: stages[i] == ScanStage(subplans[i], RemoteScan)
  {
    seq(|subplans|, i requires 0 <= i < |subplans| => ScanStage(subplans[i], RemoteScan))
  }

  function StageIds(subplans: seq<Subplan>): (ids: seq<StageId>)
    ensures |ids| == |subplans| && forall i | 0 <= i < |ids| :: ids[i] == subplans[i].stageId
  {
    seq(|subplans|, i requires 0 <= i < |subplans| => subplans[i].stageId)
  }

  /** `table_inputs["scan_" + alias] = stage_id`, in order. */
  function TableInputs(subplans: seq<Subplan>): map<string, StageId> {
    if subplans == [] then map[]
    else
      var s := subplans[|subplans| - 1];
      TableInputs(subplans[..|subplans| - 1])[StageIdOf(s.alias) := s.stageId]
  }

  function FinalStage(o: Optimized): StageDef {
    StageDef(
      FINAL_STAGE, LocalCompute, StageIds(o.subplans), "", None, o.localSql, "duckdb", RETRY_LIMIT,
      TableInputs(o.subplans))
  }

  function BuildPlan(o: Optimized, tables: seq<TableRef>): PhysicalPlan
    requires o.localSql.None? ==> o.subplans != []
  {
    if o.localSql.None? then
      PhysicalPlan([ScanStage(o.subplans[0], RemoteFullQuery)], tables, o.subplans[0].stageId)
    else
      PhysicalPlan(ScanStages(o.subplans) + [FinalStage(o)], tables, FINAL_STAGE)
  }

  /** `PhysicalPlanner.build` */
  method Build(o: Optimized, tables: seq<TableRef>) returns (plan: PhysicalPlan)
    requires o.localSql.None? ==> o.subplans != []
    ensures plan == BuildPlan(o, tables)
  {
    if o.localSql.None? {
      return PhysicalPlan([ScanStage(o.subplans[0], RemoteFullQuery)], tables, o.subplans[0].stageId);
    }
    var stages: seq<StageDef>, ids: seq<StageId>, inputs: map<string, StageId> := [], [], map[];
    for i := 0 to |o.subplans|
      invariant stages == ScanStages(o.subplans)[..i]
      invariant ids == StageIds(o.subplans)[..i]
      invariant inputs == TableInputs(o.subplans[..i])
    {
      var s := o.subplans[i];
      stages := stages + [ScanStage(s, RemoteScan)];
      ids := ids + [s.stageId];
      inputs := inputs[StageIdOf(s.alias) := s.stageId];
      assert o.subplans[..i + 1][..i] == o.subplans[..i];
    }
    assert o.subplans[..|o.subplans|] == o.subplans;
    assert stages == ScanStages(o.subplans) && ids == StageIds(o.subplans);
    stages := stages + [StageDef(FINAL_STAGE, LocalCompute, ids, "", None, o.localSql, "duckdb", RETRY_LIMIT, inputs)];
    plan := PhysicalPlan(stages, tables, FINAL_STAGE);
  }
}
