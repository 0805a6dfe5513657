/** The stages of a planned query, by id, and what each of them is worth. */
module StagePlans {
  import opened Prelude
  import opened Dag
  import opened Sql
  import opened JoinFilter
  import opened Renderer
  import opened Plans
  import opened Planner
  import opened PushdownProperties
  import opened CacheContext
  import opened Execution
  import opened Interleaving
  import S = Scheduler
  import M = CacheMeaning

  // ----- assumptions on the world -----

  /** The table that the SQL of a scan names, at its source. */
  function ScannedTable(w: World, s: Subplan): string
    requires s.sql.ScanSql?
  {
    match s.sql.source
    case Physical(catalog, schema, table) => w.holds(s.sourceId, catalog, schema, table)
    case Subquery(text) => w.selects(s.sourceId, text)
  }

  /**
   * Sources evaluate a scan on the table its SQL names, and the local engine evaluates a query when
   * all its tables are registered relations.
   */
  ghost predicate SqlWorld(sem: Semantics, w: World) {
    && (forall s: Subplan, tables: map<string, Table> | s.sql.ScanSql? ::
         w.remote(s, tables) ==
           if ScannedTable(w, s) in tables then Some(EvalScan(sem, s.sql, tables[ScannedTable(w, s)])) else None)
    && (forall q, relations ::
         w.compute(q, relations) ==
           if AllRegistered(Items(q), relations) then Some(EvalLocal(sem, q, relations)) else None)
  }

  /** One part of a table's name: as the entry of the metadata says, if it is there, and else the binding's own. */
  ghost predicate PartIs(entry: Option<Option<string>>, own: Option<string>, part: string) {
    match entry
    case None => part == if own.Some? then own.value else ""
    case Some(None) => part == ""
    case Some(Some(name)) => part == name
  }

  /** The name under which the table of a binding is to be scanned; a catalog may have to be left out. */
  ghost predicate CalledIn(b: Binding, catalog: string, schema: string, table: string) {
    && (if b.skipCatalog then catalog == "" else PartIs(b.physicalCatalog, b.catalog, catalog))
    && PartIs(b.physicalSchema, b.schema, schema)
    && PartIs(b.physicalTable, Some(b.table), table)
  }

  /** The subquery of a binding, without white space around it and semicolons after it. */
  ghost predicate SubqueryIs(b: Binding, text: string) {
    var whole := Strip(b.physicalSql);
    && (text != "" ==> text[|text| - 1] != ';')
    && |text| <= |whole| && whole[..|text|] == text && forall k | |text| <= k < |whole| :: whole[k] == ';'
  }

  /** The source holds the table, under the name or the subquery that the binding gives. */
  ghost predicate Located(w: World, sourceId: string, key: string, b: Binding) {
    if Prelude.Blank(b.physicalSql) then
      forall catalog, schema, table | CalledIn(b, catalog, schema, table) ::
        w.holds(sourceId, catalog, schema, table) == key
    else
      forall text | SubqueryIs(b, text) :: w.selects(sourceId, text) == key
  }

  ghost predicate AllLocated(w: World, r: Request)
    requires Bound(r)
  {
    forall i | 0 <= i < |r.tables| ::
      Located(w, r.tables[i].sourceId, r.tables[i].tableKey, r.bindings[r.tables[i].tableKey])
  }

  lemma {:induction false} SemicolonsCut(s: string)
    ensures var text := WithoutSemicolons(s);
      && (text != "" ==> text[|text| - 1] != ';')
      && |text| <= |s| && s[..|text|] == text && forall k | |text| <= k < |s| :: s[k] == ';'
  {
    if s != "" && s[|s| - 1] == ';' {
      SemicolonsCut(s[..|s| - 1]);
      var text := WithoutSemicolons(s);
      assert s[..|s| - 1][..|text|] == s[..|text|];
      forall k | |text| <= k < |s| ensures s[k] == ';' { if k < |s| - 1 { assert s[..|s| - 1][k] == ';'; } }
    }
  }

  /** The scan of a table names the table that the binding locates. */
  lemma {:induction false} ScanNamesItsTable(w: World, r: Request, i: nat)
    requires Bound(r) && AllLocated(w, r) && i < |r.tables|
    ensures ScannedTable(w, ScanOf(r, r.tables[i])) == r.tables[i].tableKey
  {
    var b := r.bindings[r.tables[i].tableKey];
    if Prelude.Blank(b.physicalSql) {
      assert CalledIn(
        b, if b.skipCatalog then "" else Part(PhysicalCatalog(b)), Part(PhysicalSchema(b)), Part(PhysicalTable(b)));
    } else {
      SemicolonsCut(Strip(b.physicalSql));
      assert SubqueryIs(b, WithoutSemicolons(Strip(b.physicalSql)));
    }
  }

  /** Every table of the request has contents and a registered source. */
  ghost predicate Served(w: World, r: Request, ds: DatasetState) {
    forall i | 0 <= i < |r.tables| :: r.tables[i].sourceId in w.sources && r.tables[i].tableKey in ds.contents
  }

  /** The tables of the query: the contents of each table, under its alias. */
  function SourceTables(tables: seq<TableRef>, ds: DatasetState): map<string, Table> {
    if tables == [] then map[]
    else
      var t := tables[|tables| - 1];
      var contents := if t.tableKey in ds.contents then ds.contents[t.tableKey] else [];
      SourceTables(tables[..|tables| - 1], ds)[t.alias := contents]
  }

  lemma {:induction false} SourceTableOf(tables: seq<TableRef>, ds: DatasetState, i: nat)
    requires i < |tables| && forall j, k | 0 <= j < k < |tables| :: tables[j].alias != tables[k].alias
    ensures TableOf(SourceTables(tables, ds), tables[i].alias) ==
            if tables[i].tableKey in ds.contents then ds.contents[tables[i].tableKey] else []
  {
    if i < |tables| - 1 { SourceTableOf(tables[..|tables| - 1], ds, i); }
  }

  // ----- stage maps -----

  lemma {:induction false} StageMapKeys(stages: seq<StageDef>)
    ensures StageMap(stages).Keys == set s | s in stages :: s.id
    ensures forall id | id in StageMap(stages) :: StageMap(stages)[id] in stages && StageMap(stages)[id].id == id
  {
    if stages != [] {
      StageMapKeys(stages[..|stages| - 1]);
      assert stages == stages[..|stages| - 1] + [stages[|stages| - 1]];
    }
  }

  lemma {:induction false} StageMapOf(stages: seq<StageDef>, i: nat)
    requires i < |stages| && forall j, k | 0 <= j < k < |stages| :: stages[j].id != stages[k].id
    ensures stages[i].id in StageMap(stages) && StageMap(stages)[stages[i].id] == stages[i]
  {
    if i < |stages| - 1 { StageMapOf(stages[..|stages| - 1], i); }
  }

  /** A repeated stage id keeps its last definition, for the scheduler and for the executor alike. */
  lemma {:induction false} SchedulerSeesTheStages(stages: seq<StageDef>)
    ensures forall s | s in S.DictValues(SchedulerPlan(stages)) ::
      s.id in StageMap(stages) && s == ToStage(StageMap(stages)[s.id])
  {
    if stages != [] {
      var init, last := stages[..|stages| - 1], stages[|stages| - 1];
      SchedulerSeesTheStages(init);
      assert SchedulerPlan(stages)[..|stages| - 1] == SchedulerPlan(init);
      var d := S.DictValues(SchedulerPlan(init));
      S.DictValuesKeepsIds(SchedulerPlan(init));
      S.DictPutKeepsIds(d, ToStage(last));
      var d' := S.DictPut(d, ToStage(last));
      forall s | s in d' ensures s.id in StageMap(stages) && s == ToStage(StageMap(stages)[s.id]) {
        if s.id == last.id {
          var i :| 0 <= i < |d'| && d'[i] == s;
          var j :| 0 <= j < |d'| && d'[j] == ToStage(last);
        }
      }
    }
  }

  // ----- the stages of a split plan -----

  function SplitStages(r: Request, lookup: map<string, string>): seq<StageDef>
    requires Bound(r)
  {
    ScanStages(Scans(r, r.tables)) + [FinalStage(SplitPlan(r, lookup))]
  }

  function SplitStagePlan(r: Request, lookup: map<string, string>): (p: StagePlan)
    requires Bound(r)
    ensures p == StagesOf(BuildPlan(SplitPlan(r, lookup), r.tables))
  {
    StagePlan(StageMap(SplitStages(r, lookup)), r.tables)
  }

  function Scan(r: Request, i: nat): StageDef
    requires Bound(r) && i < |r.tables|
  {
    ScanStage(ScanOf(r, r.tables[i]), RemoteScan)
  }

  function ScanId(r: Request, i: nat): StageId
    requires i < |r.tables|
  {
    StageIdOf(r.tables[i].alias)
  }

  lemma {:induction false} ScanAt(r: Request, tables: seq<TableRef>, i: nat)
    requires forall k | 0 <= k < |tables| :: tables[k].tableKey in r.bindings
    requires i < |tables|
    ensures Scans(r, tables)[i] == ScanOf(r, tables[i])
  {
    if i < |tables| - 1 { ScanAt(r, tables[..|tables| - 1], i); }
  }

  lemma {:induction false} ScansListed(r: Request, tables: seq<TableRef>)
    requires forall i | 0 <= i < |tables| :: tables[i].tableKey in r.bindings
    ensures forall i | 0 <= i < |tables| :: Scans(r, tables)[i] == ScanOf(r, tables[i])
  {
    forall i | 0 <= i < |tables| ensures Scans(r, tables)[i] == ScanOf(r, tables[i]) { ScanAt(r, tables, i); }
  }

  lemma {:induction false} ScanIdsDiffer(a: string, b: string)
    ensures StageIdOf(a) == StageIdOf(b) ==> a == b
    ensures StageIdOf(a) != FINAL_STAGE
  {
    assert StageIdOf(a)[5..] == a && StageIdOf(b)[5..] == b;
    assert StageIdOf(a)[0] == 's' && FINAL_STAGE[0] == 'l';
  }

  lemma {:induction false} DistinctTables(r: Request)
    requires WellFormed(r)
    ensures forall j, k | 0 <= j < k < |r.tables| :: r.tables[j].alias != r.tables[k].alias
  {
  }

  /** One scan per table, then the final stage; no stage id is used twice. */
  lemma {:induction false} SplitStagesListed(r: Request, lookup: map<string, string>)
    requires WellFormed(r)
    ensures var stages, n := SplitStages(r, lookup), |r.tables|;
      && |stages| == n + 1 && stages[n] == FinalStage(SplitPlan(r, lookup))
      && (forall i | 0 <= i < n :: stages[i] == Scan(r, i) && stages[i].id == ScanId(r, i))
      && (forall j, k | 0 <= j < k <= n :: stages[j].id != stages[k].id)
  {
    var stages, n := SplitStages(r, lookup), |r.tables|;
    ScansListed(r, r.tables);
    forall i | 0 <= i < n ensures stages[i] == Scan(r, i) && stages[i].id == ScanId(r, i) {
      assert stages[i] == ScanStages(Scans(r, r.tables))[i];
    }
    assert stages[n] == FinalStage(SplitPlan(r, lookup));
    forall j, k | 0 <= j < k <= n ensures stages[j].id != stages[k].id {
      ScanIdDiffers(r, j, k);
    }
  }

  lemma {:induction false} ScanIdDiffers(r: Request, j: nat, k: nat)
    requires WellFormed(r) && j < k <= |r.tables|
    ensures ScanId(r, j) != if k < |r.tables| then ScanId(r, k) else FINAL_STAGE
  {
    DistinctTables(r);
    ScanIdsDiffer(r.tables[j].alias, if k < |r.tables| then r.tables[k].alias else "");
  }

  lemma {:induction false} TableInputsOf(subplans: seq<Subplan>)
    requires forall i | 0 <= i < |subplans| :: subplans[i].stageId == StageIdOf(subplans[i].alias)
    ensures forall i | 0 <= i < |subplans| :: StageIdOf(subplans[i].alias) in TableInputs(subplans)
    ensures forall name | name in TableInputs(subplans) ::
      TableInputs(subplans)[name] == name && name in StageIds(subplans)
  {
    if subplans != [] {
      var init, last := subplans[..|subplans| - 1], subplans[|subplans| - 1];
      TableInputsOf(init);
      assert StageIds(subplans) == StageIds(init) + [last.stageId];
    }
  }

  /** The stages by id: a scan for every table, and the final stage, which depends on and reads exactly the scans. */
  ghost predicate SplitShape(r: Request, lookup: map<string, string>, p: StagePlan)
    requires Bound(r)
  {
    && p.tables == r.tables
    && FINAL_STAGE in p.stages && p.stages[FINAL_STAGE] == FinalStage(SplitPlan(r, lookup))
    && (forall i | 0 <= i < |r.tables| :: ScanId(r, i) in p.stages && p.stages[ScanId(r, i)] == Scan(r, i))
    && (forall id | id in p.stages && id != FINAL_STAGE :: exists i :: 0 <= i < |r.tables| && id == ScanId(r, i))
  }

  lemma {:induction false} SplitStagesById(r: Request, lookup: map<string, string>)
    requires WellFormed(r)
    ensures SplitShape(r, lookup, SplitStagePlan(r, lookup))
  {
    var p, stages, n := SplitStagePlan(r, lookup), SplitStages(r, lookup), |r.tables|;
    SplitStagesListed(r, lookup);
    StageMapOf(stages, n);
    forall i | 0 <= i < n ensures ScanId(r, i) in p.stages && p.stages[ScanId(r, i)] == Scan(r, i) {
      StageMapOf(stages, i);
    }
    forall id | id in p.stages && id != FINAL_STAGE ensures exists i :: 0 <= i < n && id == ScanId(r, i) {
      var i := StageMapIndex(stages, id);
      assert i < n && id == ScanId(r, i);
    }
  }

  lemma {:induction false} StageMapIndex(stages: seq<StageDef>, id: StageId) returns (i: nat)
    requires id in StageMap(stages)
    ensures i < |stages| && stages[i].id == id
  {
    StageMapKeys(stages);
    i :| 0 <= i < |stages| && stages[i] == StageMap(stages)[id];
  }

  ghost predicate ReadsTheScans(r: Request, s: StageDef) {
    && (forall i | 0 <= i < |r.tables| :: ScanId(r, i) in s.inputs && ScanId(r, i) in s.deps)
    && (forall name | name in s.inputs :: s.inputs[name] == name && name in s.deps)
    && (forall d | d in s.deps :: exists i :: 0 <= i < |r.tables| && d == ScanId(r, i))
  }

  /** The subplans have the scans' ids, in order. */
  lemma {:induction false} SubplanIds(r: Request)
    requires Bound(r)
    ensures var subplans := Scans(r, r.tables);
      && |subplans| == |r.tables|
      && forall i | 0 <= i < |subplans| :: subplans[i].stageId == StageIdOf(subplans[i].alias) == ScanId(r, i)
  {
    ScansListed(r, r.tables);
  }

  lemma {:induction false} FinalStageReadsTheScans(r: Request, lookup: map<string, string>)
    requires WellFormed(r)
    ensures ReadsTheScans(r, FinalStage(SplitPlan(r, lookup)))
  {
    var s, subplans := FinalStage(SplitPlan(r, lookup)), Scans(r, r.tables);
    SubplanIds(r);
    TableInputsOf(subplans);
    forall i | 0 <= i < |r.tables| ensures ScanId(r, i) in s.inputs && ScanId(r, i) in s.deps {
      assert s.deps[i] == subplans[i].stageId == StageIdOf(subplans[i].alias);
    }
    forall d | d in s.deps ensures exists i :: 0 <= i < |r.tables| && d == ScanId(r, i) {
      var i :| 0 <= i < |s.deps| && s.deps[i] == d;
      assert d == ScanId(r, i);
    }
  }

  lemma {:induction false} SplitPlanIsBuilt(r: Request, lookup: map<string, string>)
    requires WellFormed(r)
    ensures M.Built(SplitStagePlan(r, lookup))
  {
    SplitStagesById(r, lookup);
    FinalStageReadsTheScans(r, lookup);
    StageMapKeys(SplitStages(r, lookup));
  }

  lemma {:induction false} SplitPlanResolvable(r: Request, lookup: map<string, string>, p: StagePlan)
    requires Bound(r) && SplitShape(r, lookup, p) && ReadsTheScans(r, FinalStage(SplitPlan(r, lookup)))
    ensures forall id | id in p.stages :: Resolvable(Dependencies(p), id)
  {
    var g := Dependencies(p);
    forall i | 0 <= i < |r.tables| ensures Resolvable(g, ScanId(r, i)) {
      assert g[ScanId(r, i)] == [];
      ResolvableIfDependenciesAre(g, ScanId(r, i));
    }
    ResolvableIfDependenciesAre(g, FINAL_STAGE);
  }

  // ----- the value of the final stage -----

  function ScanValue(sem: Semantics, r: Request, tables: map<string, Table>, i: nat): Table
    requires Bound(r) && i < |r.tables|
  {
    EvalScan(sem, ScanOf(r, r.tables[i]).sql, TableOf(tables, r.tables[i].alias))
  }

  /** The cold value of a remote scan whose table has contents. */
  lemma {:induction false} ColdScan(sem: Semantics, w: World, p: StagePlan, ds: DatasetState, id: StageId, sub: Subplan)
    requires SqlWorld(sem, w) && id in p.stages && p.stages[id] == ScanStage(sub, RemoteScan)
    requires sub.sourceId in w.sources && sub.tableKey in ds.contents && sub.sql.ScanSql?
    requires ScannedTable(w, sub) == sub.tableKey
    requires Resolvable(Dependencies(p), id)
    ensures Cold(w, p, ds, id) == Some(EvalScan(sem, sub.sql, ds.contents[sub.tableKey]))
  {
    assert TableKeys(p.tables, p.stages[id]) == [sub.tableKey];
    var tables := ContentsOf(ds, [sub.tableKey]);
    assert sub.tableKey in tables && tables[sub.tableKey] == ds.contents[sub.tableKey];
  }

  lemma {:induction false} ScanStageValue(
    sem: Semantics, w: World, r: Request, lookup: map<string, string>, p: StagePlan, ds: DatasetState, i: nat)
    requires WellFormed(r) && SqlWorld(sem, w) && Served(w, r, ds) && AllLocated(w, r)
    requires i < |r.tables| && SplitShape(r, lookup, p)
    requires Resolvable(Dependencies(p), ScanId(r, i))
    ensures Cold(w, p, ds, ScanId(r, i)) == Some(ScanValue(sem, r, SourceTables(r.tables, ds), i))
  {
    DistinctTables(r);
    SourceTableOf(r.tables, ds, i);
    ScanNamesItsTable(w, r, i);
    ColdScan(sem, w, p, ds, ScanId(r, i), ScanOf(r, r.tables[i]));
  }

  /** Every scan has its value. */
  ghost predicate ScansDone(sem: Semantics, r: Request, tables: map<string, Table>, outputs: map<StageId, Table>)
    requires Bound(r)
  {
    forall i | 0 <= i < |r.tables| :: ScanId(r, i) in outputs && outputs[ScanId(r, i)] == ScanValue(sem, r, tables, i)
  }

  lemma {:induction false} FinalStageInput(w: World, r: Request, s: StageDef, outputs: map<StageId, Table>)
    requires ReadsTheScans(r, s) && (forall i | 0 <= i < |r.tables| :: ScanId(r, i) in outputs)
    ensures forall name | name in s.inputs :: s.inputs[name] in outputs
    ensures var relations := map name | name in s.inputs :: outputs[s.inputs[name]];
      && (forall i | 0 <= i < |r.tables| :: ScanId(r, i) in relations)
      && (forall i | 0 <= i < |r.tables| :: TableOf(relations, ScanId(r, i)) == outputs[ScanId(r, i)])
      && (s.sql.Some? && s.dialect == "duckdb" ==> LocalValue(w, s, outputs) == w.compute(s.sql.value, relations))
  {
  }

  lemma {:induction false} ScansRegistered(r: Request, lookup: map<string, string>, relations: map<string, Table>)
    requires WellFormed(r) && forall i | 0 <= i < |r.tables| :: ScanId(r, i) in relations
    ensures AllRegistered(Items(SplitPlan(r, lookup).localSql.value), relations)
  {
    forall i | 0 <= i < |QueryAliases(r.query)| ensures StageIdOf(QueryAliases(r.query)[i]) in relations {
      assert StageIdOf(QueryAliases(r.query)[i]) == ScanId(r, i);
    }
    RewrittenItemsRegistered(r.norm, lookup, r.query, relations);
  }

  lemma {:induction false} FinalStageOnScans(
    sem: Semantics, w: World, r: Request, lookup: map<string, string>, tables: map<string, Table>,
    outputs: map<StageId, Table>)
    requires WellFormed(r) && OwnColumnsOnly(r) && SafePushdown(sem, r) && IsLookup(r.norm, Items(r.query), lookup)
    requires SqlWorld(sem, w) && ReadsTheScans(r, FinalStage(SplitPlan(r, lookup)))
    requires ScansDone(sem, r, tables, outputs)
    ensures LocalValue(w, FinalStage(SplitPlan(r, lookup)), outputs) == Some(EvalQuery(sem, r.query, tables))
  {
    var s := FinalStage(SplitPlan(r, lookup));
    FinalStageInput(w, r, s, outputs);
    var relations := map name | name in s.inputs :: outputs[s.inputs[name]];
    forall i | 0 <= i < |r.tables|
      ensures TableOf(relations, StageIdOf(r.tables[i].alias)) ==
              EvalScan(sem, ScanOf(r, r.tables[i]).sql, TableOf(tables, r.tables[i].alias))
    {
      assert TableOf(relations, ScanId(r, i)) == ScanValue(sem, r, tables, i);
    }
    ScansRegistered(r, lookup, relations);
    ScansThenLocalIsTheQuery(sem, r, lookup, tables, relations);
  }

  /** The value of the final stage, computed without any cache, is the value of the query over its source tables. */
  lemma {:induction false} FinalStageIsTheQuery(
    sem: Semantics, w: World, r: Request, lookup: map<string, string>, ds: DatasetState)
    requires WellFormed(r) && OwnColumnsOnly(r) && SafePushdown(sem, r) && IsLookup(r.norm, Items(r.query), lookup)
    requires SqlWorld(sem, w) && Served(w, r, ds) && AllLocated(w, r)
    ensures Resolvable(Dependencies(SplitStagePlan(r, lookup)), FINAL_STAGE)
    ensures Cold(w, SplitStagePlan(r, lookup), ds, FINAL_STAGE) ==
      Some(EvalQuery(sem, r.query, SourceTables(r.tables, ds)))
  {
    var p := SplitStagePlan(r, lookup);
    SplitStagesById(r, lookup);
    FinalStageReadsTheScans(r, lookup);
    SplitPlanResolvable(r, lookup, p);
    var outputs := ColdOutputs(w, p, ds, FINAL_STAGE);
    forall i | 0 <= i < |r.tables|
      ensures ScanId(r, i) in outputs && outputs[ScanId(r, i)] == ScanValue(sem, r, SourceTables(r.tables, ds), i)
    {
      ScanStageValue(sem, w, r, lookup, p, ds, i);
    }
    FinalStageOnScans(sem, w, r, lookup, SourceTables(r.tables, ds), outputs);
  }

  // ----- a query that is pushed down whole -----

  /** The cache key of a query that is pushed down whole covers every table the query names. */
  lemma {:induction false} FullQueryKeyCoversItsTables(r: Request)
    requires Bound(r) && r.tables != [] && FullPushdown(r)
    requires r.tables[0].sourceId != "" && Strip(r.tables[0].sourceId) == r.tables[0].sourceId
    ensures var keys := TableKeys(r.tables, BuildPlan(FullPlan(r), r.tables).stages[0]);
      && Sorted(keys) && (forall t | t in r.tables :: t.tableKey in keys)
      && forall k | k in keys :: exists t :: t in r.tables && t.tableKey == k
  {
    var source := r.tables[0].sourceId;
    forall t | t in r.tables ensures t.sourceId == source {
      var i :| 0 <= i < |r.tables| && r.tables[i] == t;
      OneSource(r, i);
    }
    SourceTablesListed(r.tables, source);
    SortKeepsMembers(TableKeysOfSource(r.tables, source));
    SortSorts(TableKeysOfSource(r.tables, source));
  }

  lemma {:induction false} OneMember(s: set<string>, x: string, y: string)
    requires |s| == 1 && x in s && y in s
    ensures x == y
  {
    assert |s - {x}| == 0;
    assert y !in s - {x};
  }

  lemma {:induction false} SourceTablesListed(tables: seq<TableRef>, source: string)
    ensures forall t | t in tables && t.sourceId == source :: t.tableKey in TableKeysOfSource(tables, source)
    ensures forall k | k in TableKeysOfSource(tables, source) :: exists t :: t in tables && t.tableKey == k
  {
    if tables != [] { SourceTablesListed(tables[1..], source); }
  }

  function FullStage(r: Request): StageDef
    requires r.tables != []
  {
    ScanStage(FullPlan(r).subplans[0], RemoteFullQuery)
  }

  function FullStagePlan(r: Request): (p: StagePlan)
    requires r.tables != []
    ensures p == StagesOf(BuildPlan(FullPlan(r), r.tables))
  {
    assert [FullStage(r)][..0] == [] && StageMap([]) == map[];
    assert StageMap([FullStage(r)]) == map[][FullStage(r).id := FullStage(r)];
    StagePlan(map[FullStage(r).id := FullStage(r)], r.tables)
  }

  /** The table a source finds under the name that a query writes. */
  function WrittenTable(w: World, sourceId: string, t: FromItem): string {
    w.holds(sourceId, t.catalog, t.db, t.name)
  }

  /** The tables of a whole query, as its source finds them. */
  function NamedTables(w: World, sourceId: string, items: seq<FromItem>, tables: map<string, Table>): map<string, Table>
  {
    if items == [] then map[]
    else
      var t := items[|items| - 1];
      var key := WrittenTable(w, sourceId, t);
      NamedTables(w, sourceId, items[..|items| - 1], tables)[t.alias := if key in tables then tables[key] else []]
  }

  /** Sources evaluate whole queries over the tables that they find under the names written. */
  ghost predicate SourcesRunQueries(sem: Semantics, w: World) {
    forall s: Subplan, tables: map<string, Table> |
      s.sql.FullSql? && (forall t | t in Items(s.sql.query) :: WrittenTable(w, s.sourceId, t) in tables) ::
      w.remote(s, tables) ==
        Some(EvalQuery(sem, s.sql.query, NamedTables(w, s.sourceId, Items(s.sql.query), tables)))
  }

  /** How the parser binds a table of the query: by key, with or without the schema, or by table name. */
  ghost predicate BoundBy(norm: Norm, t: FromItem, b: Binding) {
    || norm(t.name) == norm(b.tableKey)
    || (t.db != "" && t.db + "." + t.name == b.tableKey)
    || t.name == b.table
  }

  /** The same table name up to case, alone or with its schema in front. */
  ghost predicate SameName(norm: Norm, t: FromItem, table: string) {
    norm(t.name) == norm(table) || (t.db != "" && norm(t.db + "." + t.name) == norm(table))
  }

  /** Of names that are the same up to case, the source finds the same table. */
  ghost predicate FoundAlike(w: World, norm: Norm, sourceId: string, t: FromItem, b: Binding) {
    forall catalog, schema, table | CalledIn(b, catalog, schema, table) && SameName(norm, t, table) ::
      WrittenTable(w, sourceId, t) == w.holds(sourceId, catalog, schema, table)
  }

  /** No entry for a physical name is there without a value, and key and table have names that are not `None`. */
  ghost predicate Named(norm: Norm, b: Binding) {
    && b.physicalCatalog != Some(None) && b.physicalSchema != Some(None) && b.physicalTable != Some(None)
    && norm(b.tableKey) != "" && norm(b.table) != "" && norm(b.tableKey) != norm("None")
  }

  /** The binding is called by its own name, without a subquery or parts to override or to leave out. */
  ghost predicate GoesByItsOwnName(b: Binding) {
    && CalledIn(
      b, if b.catalog.Some? then b.catalog.value else "", if b.schema.Some? then b.schema.value else "", b.table)
    && b.physicalSql == ""
  }

  /** A binding that needs no rewriting goes by its own name, under its key and under the name the query writes. */
  lemma {:induction false} NoRewriteKeepsNames(norm: Norm, t: FromItem, b: Binding)
    requires !NeedsScanRewrite(b) && !NeedsLogicalRewrite(norm, b) && Named(norm, b)
    ensures GoesByItsOwnName(b) && norm(b.tableKey) == norm(b.table)
    ensures BoundBy(norm, t, b) ==> SameName(norm, t, b.table)
  {
    NoScanRewriteIff(b);
    NoLogicalRewriteIff(norm, b);
  }

  /** A table of a query that is pushed down whole: where its binding and the query's own name for it lead. */
  ghost predicate WholeTable(w: World, r: Request, i: nat)
    requires Bound(r) && i < |r.tables| && i < |Items(r.query)|
  {
    var t, item, b := r.tables[i], Items(r.query)[i], r.bindings[r.tables[i].tableKey];
    && item.alias == t.alias && BoundBy(r.norm, item, b) && Named(r.norm, b)
    && Located(w, t.sourceId, t.tableKey, b) && FoundAlike(w, r.norm, t.sourceId, item, b)
  }

  /** The conditions on a query that is pushed down whole. */
  ghost predicate RunsWhole(sem: Semantics, w: World, r: Request, ds: DatasetState) {
    && Bound(r) && r.tables != [] && FullPushdown(r) && Served(w, r, ds)
    && r.tables[0].sourceId != "" && Strip(r.tables[0].sourceId) == r.tables[0].sourceId
    && SourcesRunQueries(sem, w) && |Items(r.query)| == |r.tables|
    && forall i | 0 <= i < |r.tables| :: WholeTable(w, r, i)
  }

  /** The source finds, for each table of the query, the one the engine bound it to. */
  lemma {:induction false} WholeTableIsFound(w: World, r: Request, i: nat)
    requires Bound(r) && r.tables != [] && FullPushdown(r) && |Items(r.query)| == |r.tables| && i < |r.tables|
    requires WholeTable(w, r, i)
    ensures r.tables[i].sourceId == r.tables[0].sourceId
    ensures WrittenTable(w, r.tables[0].sourceId, Items(r.query)[i]) == r.tables[i].tableKey
  {
    OneSource(r, i);
    NoRewriteKeepsNames(r.norm, Items(r.query)[i], r.bindings[r.tables[i].tableKey]);
    assert Prelude.Blank("");
  }

  lemma {:induction false} OneSource(r: Request, i: nat)
    requires Bound(r) && r.tables != [] && FullPushdown(r) && i < |r.tables|
    ensures r.tables[i].sourceId == r.tables[0].sourceId
  {
    OneSourceIff(r);
  }

  lemma {:induction false} NamedAreSourceTables(
    w: World, sourceId: string, items: seq<FromItem>, refs: seq<TableRef>, tables: map<string, Table>,
    ds: DatasetState)
    requires |items| == |refs|
    requires forall i | 0 <= i < |refs| ::
      && items[i].alias == refs[i].alias && WrittenTable(w, sourceId, items[i]) == refs[i].tableKey
      && refs[i].tableKey in tables && refs[i].tableKey in ds.contents && tables[refs[i].tableKey] ==
        ds.contents[refs[i].tableKey]
    ensures NamedTables(w, sourceId, items, tables) == SourceTables(refs, ds)
  {
    if items != [] {
      NamedAreSourceTables(w, sourceId, items[..|items| - 1], refs[..|refs| - 1], tables, ds);
    }
  }

  lemma {:induction false} FullStageTables(w: World, r: Request, ds: DatasetState)
    requires Bound(r) && r.tables != [] && FullPushdown(r) && Served(w, r, ds)
    requires r.tables[0].sourceId != "" && Strip(r.tables[0].sourceId) == r.tables[0].sourceId
    ensures var tables := ContentsOf(ds, TableKeys(r.tables, FullStage(r)));
      forall t | t in r.tables :: t.tableKey in tables && tables[t.tableKey] == ds.contents[t.tableKey]
  {
    FullQueryKeyCoversItsTables(r);
    forall t | t in r.tables ensures t.tableKey in ds.contents {
      var i :| 0 <= i < |r.tables| && r.tables[i] == t;
    }
  }

  /** The only stage of a query that is pushed down whole has the value of the query. */
  lemma {:induction false} FullStageIsTheQuery(sem: Semantics, w: World, r: Request, ds: DatasetState)
    requires RunsWhole(sem, w, r, ds)
    ensures var p, id := FullStagePlan(r), FullStage(r).id;
      && Resolvable(Dependencies(p), id)
      && Cold(w, p, ds, id) == Some(EvalQuery(sem, r.query, SourceTables(r.tables, ds)))
  {
    var p, s := FullStagePlan(r), FullStage(r);
    var tables := ContentsOf(ds, TableKeys(r.tables, s));
    assert Dependencies(p)[s.id] == [];
    ResolvableIfDependenciesAre(Dependencies(p), s.id);
    FullStageTables(w, r, ds);
    forall i | 0 <= i < |r.tables|
      ensures Items(r.query)[i].alias == r.tables[i].alias
      ensures WrittenTable(w, r.tables[0].sourceId, Items(r.query)[i]) == r.tables[i].tableKey
    {
      assert WholeTable(w, r, i);
      WholeTableIsFound(w, r, i);
    }
    RemoteWhole(sem, w, r, tables, ds);
  }

  lemma {:induction false} RemoteWhole(
    sem: Semantics, w: World, r: Request, tables: map<string, Table>, ds: DatasetState)
    requires Bound(r) && r.tables != [] && SourcesRunQueries(sem, w) && Served(w, r, ds)
    requires |Items(r.query)| == |r.tables|
    requires forall i | 0 <= i < |r.tables| ::
      && Items(r.query)[i].alias == r.tables[i].alias
      && WrittenTable(w, r.tables[0].sourceId, Items(r.query)[i]) == r.tables[i].tableKey
    requires forall t | t in r.tables :: t.tableKey in tables && tables[t.tableKey] == ds.contents[t.tableKey]
    ensures RemoteValue(w, FullStage(r), tables) == Some(EvalQuery(sem, r.query, SourceTables(r.tables, ds)))
  {
    var source := r.tables[0].sourceId;
    forall i | 0 <= i < |r.tables| ensures r.tables[i] in r.tables {}
    NamedAreSourceTables(w, source, Items(r.query), r.tables, tables, ds);
    forall t | t in Items(r.query) ensures WrittenTable(w, source, t) in tables {
      var i :| 0 <= i < |Items(r.query)| && Items(r.query)[i] == t;
      assert r.tables[i] in r.tables;
    }
  }

  // ----- when a query is pushed down whole -----

  /** A stated name is the binding's own. */
  ghost predicate OwnPart(entry: Option<Option<string>>, own: Option<string>) {
    forall name | entry == Some(Some(name)) :: own == Some(name)
  }

  /** A name in the metadata, or the word that an absent one prints as. */
  function NameOrNone(entry: Option<string>): string { if entry.Some? then entry.value else "None" }

  /** Every name a query could use for the table is one the source knows, or blank, or the source's names all are. */
  ghost predicate KeyIsTable(norm: Norm, b: Binding) {
    var physical := if b.physicalTable.Some? then NameOrNone(b.physicalTable.value) else "None";
    && KnownName(norm, b.tableKey, b.table, physical)
    && KnownName(norm, NameOrNone(b.datasetAlias), b.table, physical)
  }

  predicate KnownName(norm: Norm, key: string, table: string, physical: string) {
    norm(key) == "" || norm(key) == norm(table) || norm(key) == norm(physical) || norm(table) == norm(physical) == ""
  }

  /**
   * A query is pushed down whole exactly when its tables are in one source, that source speaks the
   * dialect of the query, and no table goes by another name than its binding's own.
   */
  lemma {:induction false} FullPushdownIff(r: Request)
    requires Bound(r) && r.tables != []
    ensures FullPushdown(r) <==> forall i | 0 <= i < |r.tables| :: GoesWhole(r, i)
  {
    OneSourceIff(r);
    forall i | 0 <= i < |r.tables|
      ensures GoesWhole(r, i) <==>
        var source, b := r.tables[i].sourceId, r.bindings[r.tables[i].tableKey];
        && source == r.tables[0].sourceId && !NeedsScanRewrite(b) && !NeedsLogicalRewrite(r.norm, b)
        && Dialect(r.norm, OwnDialect(r, source)) == Dialect(r.norm, r.inputDialect)
    {
      NoScanRewriteIff(r.bindings[r.tables[i].tableKey]);
      NoLogicalRewriteIff(r.norm, r.bindings[r.tables[i].tableKey]);
    }
  }

  /** What one table must be like for its query to be pushed down whole. */
  ghost predicate GoesWhole(r: Request, i: nat)
    requires Bound(r) && i < |r.tables|
  {
    var source, b := r.tables[i].sourceId, r.bindings[r.tables[i].tableKey];
    && source == r.tables[0].sourceId
    && SameDialect(r.norm, if source in r.dialects then r.dialects[source] else "", r.inputDialect)
    && OwnNames(b) && KeyIsTable(r.norm, b)
  }

  /** No subquery, and no part of the name is overridden or left out. */
  ghost predicate OwnNames(b: Binding) {
    && b.physicalSql == "" && !b.skipCatalog
    && OwnPart(b.physicalCatalog, b.catalog) && OwnPart(b.physicalSchema, b.schema)
    && OwnPart(b.physicalTable, Some(b.table))
  }

  lemma {:induction false} OneSourceIff(r: Request)
    requires r.tables != []
    ensures |set i | 0 <= i < |r.tables| :: r.tables[i].sourceId| == 1 <==>
      forall i | 0 <= i < |r.tables| :: r.tables[i].sourceId == r.tables[0].sourceId
  {
    var sources := set i | 0 <= i < |r.tables| :: r.tables[i].sourceId;
    assert r.tables[0].sourceId in sources;
    if |sources| == 1 {
      forall i | 0 <= i < |r.tables| ensures r.tables[i].sourceId == r.tables[0].sourceId {
        assert r.tables[i].sourceId in sources;
        OneMember(sources, r.tables[i].sourceId, r.tables[0].sourceId);
      }
    }
    if forall i | 0 <= i < |r.tables| :: r.tables[i].sourceId == r.tables[0].sourceId {
      assert sources == {r.tables[0].sourceId};
    }
  }

  lemma {:induction false} NoScanRewriteIff(b: Binding)
    ensures !NeedsScanRewrite(b) <==> OwnNames(b)
  {
  }

  lemma {:induction false} NoLogicalRewriteIff(norm: Norm, b: Binding)
    ensures !NeedsLogicalRewrite(norm, b) <==> KeyIsTable(norm, b)
  {
    var alias := NameOrNone(b.datasetAlias);
    var physical := if b.physicalTable.Some? then NameOrNone(b.physicalTable.value) else "None";
    var x, y := {norm(b.tableKey), norm(alias)} - {""}, {norm(b.table), norm(physical)} - {""};
    assert NeedsLogicalRewrite(norm, b) <==> x != {} && y != {} && !(x <= y);
    assert norm(b.tableKey) != "" ==> norm(b.tableKey) in x;
    assert norm(alias) != "" ==> norm(alias) in x;
    assert norm(b.table) != "" ==> norm(b.table) in y;
    assert norm(physical) != "" ==> norm(physical) in y;
  }

  // ----- the scheduler's graph -----

  lemma {:induction false} PlanGraphIsDependencies(stages: seq<StageDef>, tables: seq<TableRef>)
    ensures S.PlanGraph(SchedulerPlan(stages)) == Dependencies(StagePlan(StageMap(stages), tables))
  {
    var plan := SchedulerPlan(stages);
    SchedulerSeesTheStages(stages);
    S.PlanGraphKeepsDeps(plan);
    S.DictValuesKeepsIds(plan);
    StageMapKeys(stages);
    forall id ensures id in S.Ids(plan) <==> id in StageMap(stages) {
      if id in S.Ids(plan) { var i :| 0 <= i < |plan| && plan[i].id == id; assert stages[i] in stages; }
      if id in StageMap(stages) { var i :| 0 <= i < |stages| && stages[i].id == id; assert plan[i] in plan; }
    }
    forall id | id in S.PlanGraph(plan) ensures S.PlanGraph(plan)[id] == StageMap(stages)[id].deps {
      var s :| s in S.DictValues(plan) && s.id == id;
    }
  }
}
