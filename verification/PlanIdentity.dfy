/** What a plan id fixes, what it leaves out, and when the rest makes no difference to a run. */
module PlanIdentity {
  import opened Prelude
  import opened Dag
  import opened Sql
  import opened JoinFilter
  import opened Projection
  import opened Renderer
  import opened Plans
  import opened Planner
  import opened PushdownProperties
  import opened Execution
  import opened StagePlans

  // What the plan id is a hash of: the logical plan, with the table references that were resolved
  // through the bindings, and the local SQL. The scans themselves are not part of it.
  datatype PlanPayload = PlanPayload(query: Query, tables: seq<TableRef>, localSql: Option<Query>)

  function PayloadOf(r: Request, o: Optimized): PlanPayload { PlanPayload(r.query, r.tables, o.localSql) }

  function PlanOf(r: Request, lookup: map<string, string>): Optimized
    requires Bound(r) && r.tables != []
  {
    if FullPushdown(r) then FullPlan(r) else SplitPlan(r, lookup)
  }

  /** The same query over the same tables, with other bindings, source dialects and statistics. */
  ghost predicate Rebinds(r: Request, r': Request) {
    && r' == r.(tables := r'.tables, bindings := r'.bindings, dialects := r'.dialects, rows := r'.rows)
    && |r.tables| == |r'.tables| && forall i | 0 <= i < |r.tables| ::
         r'.tables[i].alias == r.tables[i].alias && r'.tables[i].tableKey == r.tables[i].tableKey
  }

  /** The table references are those of the bindings, as the parser makes them. */
  ghost predicate Referenced(r: Request)
    requires Bound(r)
  {
    forall i | 0 <= i < |r.tables| :: r.tables[i] == RefOf(r.tables[i].alias, r.bindings[r.tables[i].tableKey])
  }

  /** The bindings agree on what a table reference takes from them. */
  predicate SameReference(b: Binding, b': Binding) {
    && b.sourceId == b'.sourceId && b.connectorId == b'.connectorId
    && b.schema == b'.schema && b.table == b'.table && b.catalog == b'.catalog
  }

  ghost predicate SameReferences(r: Request, r': Request)
    requires Bound(r) && Bound(r') && Rebinds(r, r')
  {
    forall i | 0 <= i < |r.tables| ::
      SameReference(r.bindings[r.tables[i].tableKey], r'.bindings[r.tables[i].tableKey])
  }

  lemma {:induction false} SameTablesIff(r: Request, r': Request)
    requires Bound(r) && Bound(r') && Rebinds(r, r') && Referenced(r) && Referenced(r')
    ensures r.tables == r'.tables <==> SameReferences(r, r')
  {
    forall i | 0 <= i < |r.tables|
      ensures r.tables[i] == r'.tables[i] <==>
        SameReference(r.bindings[r.tables[i].tableKey], r'.bindings[r.tables[i].tableKey])
    {
      assert r'.tables[i] == RefOf(r.tables[i].alias, r'.bindings[r.tables[i].tableKey]);
    }
  }

  /**
   * Requests that differ in their bindings have the same plan id payload exactly when the bindings
   * agree on source, connector, schema, table and catalog of every table, and both queries are
   * pushed down whole or neither is.
   */
  lemma {:induction false} SamePlanIdIff(r: Request, r': Request, lookup: map<string, string>)
    requires Bound(r) && Bound(r') && r.tables != [] && Rebinds(r, r') && Referenced(r) && Referenced(r')
    ensures PayloadOf(r, PlanOf(r, lookup)) == PayloadOf(r', PlanOf(r', lookup)) <==>
      SameReferences(r, r') && (FullPushdown(r) <==> FullPushdown(r'))
  {
    SameTablesIff(r, r');
  }

  lemma {:induction false} ScanExprIgnoresBinding(scope: Scope, norm: Norm, b: Binding, b': Binding, a: string, e: Expr)
    requires LocalTo(scope, a, e) && a != "" && norm("") == ""
    ensures ScanExpr(norm, b, a, e) == ScanExpr(norm, b', a, e)
  {
    match e
    case Column(c) =>
      assert c in Columns(e);
      assert ScanColumn(norm, b, a, c) == ColumnRef("", "", c.table, c.name) == ScanColumn(norm, b', a, c);
    case Literal(_) =>
    case Compare(_, l, r) =>
      ScanExprIgnoresBinding(scope, norm, b, b', a, l); ScanExprIgnoresBinding(scope, norm, b, b', a, r);
    case And(l, r) =>
      ScanExprIgnoresBinding(scope, norm, b, b', a, l); ScanExprIgnoresBinding(scope, norm, b, b', a, r);
    case Or(l, r) =>
      ScanExprIgnoresBinding(scope, norm, b, b', a, l); ScanExprIgnoresBinding(scope, norm, b, b', a, r);
    case Not(x) => ScanExprIgnoresBinding(scope, norm, b, b', a, x);
    case IsNull(x) => ScanExprIgnoresBinding(scope, norm, b, b', a, x);
    case Paren(x) => ScanExprIgnoresBinding(scope, norm, b, b', a, x);
    case Call(_, l, r) =>
      ScanExprIgnoresBinding(scope, norm, b, b', a, l); ScanExprIgnoresBinding(scope, norm, b, b', a, r);
  }

  predicate SamePushed(r: Request, r': Request, i: nat)
    requires i < |r.tables| && i < |r'.tables|
  {
    PushedFilters(r, r.tables[i]) == PushedFilters(r', r'.tables[i])
  }

  /** Either everything is pushed, or what is simple is. */
  lemma {:induction false} PushableIsAllOrSimple(r: Request, ps: seq<Expr>, target: string)
    ensures |Pushable(r, ps, target)| <= |ps|
    ensures Dialect(r.norm, target) == Dialect(r.norm, r.inputDialect) ==> Pushable(r, ps, target) == ps
  {
    if ps != [] { PushableIsAllOrSimple(r, ps[1..], target); }
  }

  lemma {:induction false} SamePushable(r: Request, r': Request, ps: seq<Expr>, target: string, target': string)
    requires Rebinds(r, r')
    requires (Dialect(r.norm, target) == Dialect(r.norm, r.inputDialect)) ==
             (Dialect(r.norm, target') == Dialect(r.norm, r.inputDialect))
    ensures Pushable(r, ps, target) == Pushable(r', ps, target')
  {
    if ps != [] { SamePushable(r, r', ps[1..], target, target'); }
  }

  lemma {:induction false} ShorterUnlessSame(r: Request, ps: seq<Expr>, target: string)
    ensures |Pushable(r, ps, target)| == |ps| ==> Pushable(r, ps, target) == ps
  {
    if ps != [] {
      PushableIsAllOrSimple(r, ps[1..], target);
      ShorterUnlessSame(r, ps[1..], target);
    }
  }

  /** So the number of conjuncts pushed to a table says which they are. */
  lemma {:induction false} SamePushedIff(r: Request, r': Request, i: nat)
    requires Rebinds(r, r') && i < |r.tables|
    ensures SamePushed(r, r', i) <==> |PushedFilters(r, r.tables[i])| == |PushedFilters(r', r'.tables[i])|
  {
    var t, t' := r.tables[i], r'.tables[i];
    var ps := OnlyAlias(WhereConjuncts(r.query), QueryAliases(r.query), t.alias);
    var target, target' := TargetDialect(r, t.sourceId), TargetDialect(r', t'.sourceId);
    PushableIsAllOrSimple(r, ps, target);
    PushableIsAllOrSimple(r', ps, target');
    ShorterUnlessSame(r, ps, target);
    ShorterUnlessSame(r', ps, target');
    if (Dialect(r.norm, target) == Dialect(r.norm, r.inputDialect)) ==
       (Dialect(r.norm, target') == Dialect(r.norm, r.inputDialect)) {
      SamePushable(r, r', ps, target, target');
    }
  }

  /** With the same source dialects the same conjuncts are pushed. */
  lemma {:induction false} SameDialectsPushTheSame(r: Request, r': Request)
    requires Rebinds(r, r') && r.tables == r'.tables && r.dialects == r'.dialects
    ensures forall i | 0 <= i < |r.tables| :: SamePushed(r, r', i)
  {
    forall i | 0 <= i < |r.tables| ensures SamePushed(r, r', i) {
      var t := r.tables[i];
      SamePushable(r, r', OnlyAlias(WhereConjuncts(r.query), QueryAliases(r.query), t.alias),
        TargetDialect(r, t.sourceId), TargetDialect(r', t.sourceId));
    }
  }

  /** When the same conjuncts are pushed, rebinding changes nothing of a scan's SQL but its source. */
  lemma {:induction false} ReboundScan(r: Request, r': Request, i: nat)
    requires WellFormed(r) && OwnColumnsOnly(r) && Rebinds(r, r') && Bound(r') && r.tables == r'.tables
    requires i < |r.tables| && SamePushed(r, r', i)
    ensures var s, s' := ScanOf(r, r.tables[i]), ScanOf(r', r.tables[i]);
      s' == s.(sql := s.sql.(source := ScanSourceOf(r'.bindings[r.tables[i].tableKey])))
  {
    var t := r.tables[i];
    var ps, b, b' := PushedFilters(r, t), r.bindings[t.tableKey], r'.bindings[t.tableKey];
    AliasListed(r, i);
    forall k | 0 <= k < |ps| ensures ScanExpr(r.norm, b, t.alias, ps[k]) == ScanExpr(r.norm, b', t.alias, ps[k]) {
      PushedFilterIsLocal(r, t, ps[k]);
      ScanExprIgnoresBinding(r.query.scope, r.norm, b, b', t.alias, ps[k]);
    }
    assert ScanExprs(r.norm, b, t.alias, ps) == ScanExprs(r.norm, b', t.alias, ps);
  }

  /** The scan of the table names the same source table, or the same subquery. */
  ghost predicate SameSource(r: Request, r': Request, i: nat)
    requires i < |r.tables| && r.tables[i].tableKey in r.bindings && r.tables[i].tableKey in r'.bindings
  {
    ScanSourceOf(r.bindings[r.tables[i].tableKey]) == ScanSourceOf(r'.bindings[r.tables[i].tableKey])
  }

  lemma {:induction false} ScansAgreeIff(r: Request, r': Request, i: nat)
    requires WellFormed(r) && OwnColumnsOnly(r) && Rebinds(r, r') && Bound(r') && r.tables == r'.tables
    requires i < |r.tables|
    ensures ScanOf(r, r.tables[i]) == ScanOf(r', r.tables[i]) <==> SameSource(r, r', i) && SamePushed(r, r', i)
  {
    if SamePushed(r, r', i) {
      ReboundScan(r, r', i);
    } else {
      SamePushedIff(r, r', i);
    }
  }

  lemma {:induction false} SameScansIff(r: Request, r': Request)
    requires Bound(r) && Bound(r') && r.tables == r'.tables
    ensures Scans(r, r.tables) == Scans(r', r.tables) <==>
      forall i | 0 <= i < |r.tables| :: ScanOf(r, r.tables[i]) == ScanOf(r', r.tables[i])
  {
    ScansListed(r, r.tables);
    ScansListed(r', r.tables);
  }

  lemma {:induction false} SameStagesIff(x: seq<Subplan>, y: seq<Subplan>, f: StageDef, g: StageDef)
    requires |x| == |y| && (x == y ==> f == g)
    ensures ScanStages(x) + [f] == ScanStages(y) + [g] <==> x == y
  {
    if ScanStages(x) + [f] == ScanStages(y) + [g] {
      forall i | 0 <= i < |x| ensures x[i] == y[i] {
        assert (ScanStages(x) + [f])[i] == ScanStages(x)[i] && (ScanStages(y) + [g])[i] == ScanStages(y)[i];
      }
    }
  }

  lemma {:induction false} SameStagesOfScans(r: Request, r': Request, lookup: map<string, string>)
    requires Bound(r) && Rebinds(r, r') && Bound(r') && r.tables == r'.tables
    ensures SplitStages(r, lookup) == SplitStages(r', lookup) <==> Scans(r, r.tables) == Scans(r', r.tables)
  {
    SameFinalStage(r, r', lookup);
    SameStagesIff(
      Scans(r, r.tables), Scans(r', r.tables), FinalStage(SplitPlan(r, lookup)), FinalStage(SplitPlan(r', lookup)));
  }

  /**
   * Under one plan id, the stages of a split query are the same exactly when each table is scanned
   * from the same source, with the same pushed conjuncts.
   */
  lemma {:induction false} PlanIdFixesStagesIff(r: Request, r': Request, lookup: map<string, string>)
    requires WellFormed(r) && OwnColumnsOnly(r) && Rebinds(r, r') && Bound(r')
    requires PayloadOf(r, SplitPlan(r, lookup)) == PayloadOf(r', SplitPlan(r', lookup))
    ensures SplitStages(r, lookup) == SplitStages(r', lookup) <==>
      forall i | 0 <= i < |r.tables| :: SameSource(r, r', i) && SamePushed(r, r', i)
  {
    SameStagesOfScans(r, r', lookup);
    SameScansIffSameSources(r, r');
  }

  lemma {:induction false} SameScansIffSameSources(r: Request, r': Request)
    requires WellFormed(r) && OwnColumnsOnly(r) && Rebinds(r, r') && Bound(r') && r.tables == r'.tables
    ensures Scans(r, r.tables) == Scans(r', r.tables) <==>
      forall i | 0 <= i < |r.tables| :: SameSource(r, r', i) && SamePushed(r, r', i)
  {
    SameScansIff(r, r');
    forall i | 0 <= i < |r.tables|
      ensures ScanOf(r, r.tables[i]) == ScanOf(r', r.tables[i]) <==> SameSource(r, r', i) && SamePushed(r, r', i)
    {
      ScansAgreeIff(r, r', i);
    }
  }

  /** The binding is scanned under its own name. */
  predicate NoOverride(b: Binding) {
    && b.physicalCatalog.None? && b.physicalSchema.None? && b.physicalTable.None?
    && Prelude.Blank(b.physicalSql) && !b.skipCatalog
  }

  ghost predicate NoOverrides(r: Request)
    requires Bound(r)
  {
    forall i | 0 <= i < |r.tables| :: NoOverride(r.bindings[r.tables[i].tableKey])
  }

  /**
   * When no binding overrides the name of its table, and the dialects are the same, the plan id does
   * fix the stages.
   */
  lemma {:induction false} PlainBindingsFixStages(r: Request, r': Request, lookup: map<string, string>)
    requires Bound(r) && r.tables != [] && (!FullPushdown(r) ==> WellFormed(r) && OwnColumnsOnly(r))
    requires Rebinds(r, r') && Bound(r') && r.dialects == r'.dialects
    requires Referenced(r) && Referenced(r') && NoOverrides(r) && NoOverrides(r')
    requires PayloadOf(r, PlanOf(r, lookup)) == PayloadOf(r', PlanOf(r', lookup))
    ensures BuildPlan(PlanOf(r, lookup), r.tables) == BuildPlan(PlanOf(r', lookup), r'.tables)
  {
    SamePlanIdIff(r, r', lookup);
    if !FullPushdown(r) {
      SameDialectsPushTheSame(r, r');
      PlanIdFixesStagesIff(r, r', lookup);
      forall i | 0 <= i < |r.tables| ensures SameSource(r, r', i) {
        SameNameSameSource(r.bindings[r.tables[i].tableKey], r'.bindings[r.tables[i].tableKey]);
      }
    }
  }

  lemma {:induction false} SameNameSameSource(b: Binding, b': Binding)
    requires NoOverride(b) && NoOverride(b') && SameReference(b, b')
    ensures ScanSourceOf(b) == ScanSourceOf(b')
  {
  }

  // ----- queries that differ -----

  /** The plan id covers the query: different queries, or tables, never have the same payload. */
  lemma {:induction false} PayloadCoversTheQuery(
    r: Request, r': Request, lookup: map<string, string>, lookup': map<string, string>)
    requires Bound(r) && r.tables != [] && Bound(r') && r'.tables != []
    requires PayloadOf(r, PlanOf(r, lookup)) == PayloadOf(r', PlanOf(r', lookup'))
    ensures r.query == r'.query && r.tables == r'.tables && (FullPushdown(r) <==> FullPushdown(r'))
  {
  }

  /** Planned for the same sources and dialects, over bindings that do not override names. */
  ghost predicate Comparable(r: Request, r': Request) {
    && Bound(r) && Bound(r') && r.tables != [] && r'.tables != []
    && r.norm == r'.norm && r.dialects == r'.dialects && r.inputDialect == r'.inputDialect
    && Referenced(r) && Referenced(r') && NoOverrides(r) && NoOverrides(r')
  }

  /**
   * Of any two requests, whatever their queries, tables and bindings: the same payload means the
   * same physical plan.
   */
  lemma {:induction false} SamePlanIdSamePlan(
    r: Request, r': Request, lookup: map<string, string>, lookup': map<string, string>)
    requires Comparable(r, r') && (!FullPushdown(r) ==> WellFormed(r) && OwnColumnsOnly(r))
    requires IsLookup(r.norm, Items(r.query), lookup) && IsLookup(r'.norm, Items(r'.query), lookup')
    requires PayloadOf(r, PlanOf(r, lookup)) == PayloadOf(r', PlanOf(r', lookup'))
    ensures BuildPlan(PlanOf(r, lookup), r.tables) == BuildPlan(PlanOf(r', lookup'), r'.tables)
  {
    PayloadCoversTheQuery(r, r', lookup, lookup');
    LookupIsUnique(r.norm, Items(r.query), lookup, lookup');
    PlainBindingsFixStages(r, r', lookup);
  }

  /** The request, with another physical name for one of its tables. */
  function Renamed(r: Request, key: string, table: string): Request
    requires key in r.bindings
  {
    r.(bindings := r.bindings[key := r.bindings[key].(physicalTable := Some(Some(table)))])
  }

  lemma {:induction false} RenamedRebinds(r: Request, key: string, table: string)
    requires Bound(r) && Referenced(r) && key in r.bindings
    ensures var r' := Renamed(r, key, table); Bound(r') && Rebinds(r, r') && Referenced(r')
  {
  }

  /** A physical name is not in the table reference: another one gives other stages under the same plan id. */
  lemma {:induction false} OverrideKeepsPlanId(r: Request, lookup: map<string, string>, i: nat, table: string)
    requires WellFormed(r) && OwnColumnsOnly(r) && Referenced(r) && i < |r.tables|
    requires var b := r.bindings[r.tables[i].tableKey];
      Prelude.Blank(b.physicalSql) && table != Part(PhysicalTable(b))
    ensures var r' := Renamed(r, r.tables[i].tableKey, table);
      && Bound(r') && PayloadOf(r, SplitPlan(r, lookup)) == PayloadOf(r', SplitPlan(r', lookup))
      && SplitStages(r, lookup) != SplitStages(r', lookup)
  {
    var r' := Renamed(r, r.tables[i].tableKey, table);
    RenamedRebinds(r, r.tables[i].tableKey, table);
    OtherNameOtherSource(r.bindings[r.tables[i].tableKey], table);
    OtherSourceOtherStages(r, r', lookup, i);
  }

  lemma {:induction false} OtherSourceOtherStages(r: Request, r': Request, lookup: map<string, string>, i: nat)
    requires WellFormed(r) && OwnColumnsOnly(r) && Rebinds(r, r') && Bound(r') && r.tables == r'.tables
    requires i < |r.tables| && !SameSource(r, r', i)
    ensures SplitStages(r, lookup) != SplitStages(r', lookup)
  {
    PlanIdFixesStagesIff(r, r', lookup);
  }

  lemma {:induction false} OtherNameOtherSource(b: Binding, table: string)
    requires Prelude.Blank(b.physicalSql) && table != Part(PhysicalTable(b))
    ensures ScanSourceOf(b.(physicalTable := Some(Some(table)))) != ScanSourceOf(b)
  {
  }

  /** In a world of SQL sources a run cannot tell such plans apart. */
  lemma {:induction false} ReboundPlansAreAlike(
    sem: Semantics, w: World, r: Request, r': Request, lookup: map<string, string>)
    requires WellFormed(r) && OwnColumnsOnly(r) && Rebinds(r, r') && Bound(r') && SqlWorld(sem, w)
    requires r.tables == r'.tables && forall i | 0 <= i < |r.tables| :: SamePushed(r, r', i)
    requires AllLocated(w, r) && AllLocated(w, r')
    ensures Alike(w, SplitStagePlan(r, lookup), SplitStagePlan(r', lookup))
  {
    SplitStagesById(r, lookup);
    WellFormedRebinds(r, r');
    SplitStagesById(r', lookup);
    forall i | 0 <= i < |r.tables|
      ensures AlikeStages(w, Scan(r, i), Scan(r', i))
    {
      ReboundScansAreAlike(sem, w, r, r', i);
    }
    SameFinalStage(r, r', lookup);
    AlikeByShape(w, r, r', lookup, SplitStagePlan(r, lookup), SplitStagePlan(r', lookup));
  }

  lemma {:induction false} WellFormedRebinds(r: Request, r': Request)
    requires WellFormed(r) && Rebinds(r, r') && Bound(r') && r.tables == r'.tables
    ensures WellFormed(r')
  {
  }

  lemma {:induction false} AlikeByShape(
    w: World, r: Request, r': Request, lookup: map<string, string>, p: StagePlan, q: StagePlan)
    requires Bound(r) && Bound(r') && r.tables == r'.tables
    requires SplitShape(r, lookup, p) && SplitShape(r', lookup, q)
    requires FinalStage(SplitPlan(r, lookup)) == FinalStage(SplitPlan(r', lookup))
    requires forall i | 0 <= i < |r.tables| :: AlikeStages(w, Scan(r, i), Scan(r', i))
    ensures Alike(w, p, q)
  {
    forall id | id in p.stages ensures id in q.stages && AlikeStages(w, p.stages[id], q.stages[id]) {
      if id != FINAL_STAGE {
        var i :| 0 <= i < |r.tables| && id == ScanId(r, i);
        assert ScanId(r', i) == id;
      }
    }
    SameShapeKeys(r', r, lookup, q, p);
  }

  lemma {:induction false} SameShapeKeys(
    r: Request, r': Request, lookup: map<string, string>, p: StagePlan, q: StagePlan)
    requires Bound(r) && Bound(r') && r.tables == r'.tables && SplitShape(r, lookup, p) && SplitShape(r', lookup, q)
    ensures forall id | id in p.stages :: id in q.stages
  {
    forall id | id in p.stages ensures id in q.stages {
      if id != FINAL_STAGE {
        var i :| 0 <= i < |r.tables| && id == ScanId(r, i);
        assert ScanId(r', i) == id;
      }
    }
  }

  lemma {:induction false} SameFinalStage(r: Request, r': Request, lookup: map<string, string>)
    requires Bound(r) && Rebinds(r, r') && Bound(r') && r.tables == r'.tables
    ensures FinalStage(SplitPlan(r, lookup)) == FinalStage(SplitPlan(r', lookup))
  {
    var x, y := Scans(r, r.tables), Scans(r', r.tables);
    SubplanIds(r);
    SubplanIds(r');
    forall i | 0 <= i < |x| ensures x[i].stageId == y[i].stageId && x[i].alias == y[i].alias {
      ScanAt(r, r.tables, i);
      ScanAt(r', r.tables, i);
    }
    assert StageIds(x) == StageIds(y);
    SameInputsOfScans(x, y);
  }

  lemma {:induction false} SameInputsOfScans(x: seq<Subplan>, y: seq<Subplan>)
    requires |x| == |y| && forall i | 0 <= i < |x| :: x[i].stageId == y[i].stageId && x[i].alias == y[i].alias
    ensures TableInputs(x) == TableInputs(y)
  {
    if x != [] { SameInputsOfScans(x[..|x| - 1], y[..|y| - 1]); }
  }

  lemma {:induction false} ReboundScansAreAlike(sem: Semantics, w: World, r: Request, r': Request, i: nat)
    requires WellFormed(r) && OwnColumnsOnly(r) && Rebinds(r, r') && Bound(r') && SqlWorld(sem, w)
    requires r.tables == r'.tables && i < |r.tables| && SamePushed(r, r', i)
    requires AllLocated(w, r) && AllLocated(w, r')
    ensures AlikeStages(w, Scan(r, i), Scan(r', i))
  {
    var x, y := ScanOf(r, r.tables[i]), ScanOf(r', r.tables[i]);
    ReboundScan(r, r', i);
    ScanNamesItsTable(w, r, i);
    ScanNamesItsTable(w, r', i);
    forall tables: map<string, Table> | x.tableKey in tables ensures w.remote(x, tables) == w.remote(y, tables) {
      assert w.remote(x, tables) == Some(EvalScan(sem, x.sql, tables[x.tableKey]));
      assert w.remote(y, tables) == Some(EvalScan(sem, y.sql, tables[y.tableKey]));
    }
  }

  lemma {:induction false} AlikeIsSymmetric(w: World, p: StagePlan, q: StagePlan)
    requires Alike(w, p, q)
    ensures Alike(w, q, p)
  {
    forall id | id in q.stages ensures AlikeStages(w, q.stages[id], p.stages[id]) {
      assert AlikeStages(w, p.stages[id], q.stages[id]);
    }
  }

  lemma {:induction false} AlikeIsTransitive(w: World, p: StagePlan, q: StagePlan, s: StagePlan)
    requires Alike(w, p, q) && Alike(w, q, s)
    ensures Alike(w, p, s)
  {
    forall id | id in p.stages ensures AlikeStages(w, p.stages[id], s.stages[id]) {
      assert AlikeStages(w, p.stages[id], q.stages[id]) && AlikeStages(w, q.stages[id], s.stages[id]);
    }
  }
}
