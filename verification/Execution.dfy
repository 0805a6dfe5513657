/** Executing one stage: describe, look up, execute, write back; and what a stage is worth without any cache. */
module Execution {
  import opened Prelude
  import opened Dag
  import opened Sql
  import opened Plans
  import opened CacheContext
  import opened Store

  datatype ExecError =
    | MissingSubplan | UnknownSource | SourceFailed
    | MissingSql | UnsupportedDialect | MissingArtifact | ComputeFailed

  // Everything outside the engine. `remote` is what a source returns for a subplan on the
  // contents of the tables it reads, `compute` is the local SQL engine on named relations,
  // and `revision` is the content a freshness key stands for. `holds` says which table a source keeps
  // under a catalog, schema and table name, and `selects` which one a subquery gives there.
  datatype World = World(
    remote: (Subplan, map<string, Table>) -> Option<Table>,
    compute: (Query, map<string, Table>) -> Option<Table>,
    revision: (string, string) -> Table,
    holds: (string, string, string, string) -> string, selects: (string, string) -> string,
    sources: set<string>, keyHash: KeyHash, contentHash: ContentHash)

  // The bindings of a workflow and the contents of its tables at one moment.
  datatype DatasetState = DatasetState(bindings: map<string, Binding>, contents: map<string, Table>)

  // The stages of a physical plan by id, and the tables of its logical plan.
  datatype StagePlan = StagePlan(stages: map<StageId, StageDef>, tables: seq<TableRef>)

  function StageMap(stages: seq<StageDef>): map<StageId, StageDef> {
    if stages == [] then map[] else StageMap(stages[..|stages| - 1])[stages[|stages| - 1].id := stages[|stages| - 1]]
  }

  function StagesOf(p: PhysicalPlan): StagePlan { StagePlan(StageMap(p.stages), p.tables) }

  ghost function Dependencies(p: StagePlan): Graph { map id | id in p.stages :: p.stages[id].deps }

  function ContentsOf(ds: DatasetState, keys: seq<string>): map<string, Table> {
    map k | k in keys && k in ds.contents :: ds.contents[k]
  }

  /** What a remote stage returns when its source answers. */
  function RemoteValue(w: World, s: StageDef, tables: map<string, Table>): Option<Table> {
    if s.subplan.None? || s.subplan.value.sourceId !in w.sources then None else w.remote(s.subplan.value, tables)
  }

  /** What a local stage computes from the outputs of the stages it reads. */
  function LocalValue(w: World, s: StageDef, outputs: map<StageId, Table>): Option<Table> {
    if s.sql.None? || s.dialect != "duckdb" || !(forall r | r in s.inputs :: s.inputs[r] in outputs) then None
    else w.compute(s.sql.value, map r | r in s.inputs :: outputs[s.inputs[r]])
  }

  /** The value of a stage without any cache, by recursion over its dependencies. */
  ghost function Cold(w: World, p: StagePlan, ds: DatasetState, id: StageId): Option<Table>
    requires Resolvable(Dependencies(p), id)
    decreases Rank(Dependencies(p), id), 1
  {
    DependencyRank(Dependencies(p), id, id);
    var s := p.stages[id];
    if s.kind.LocalCompute? then LocalValue(w, s, ColdOutputs(w, p, ds, id))
    else RemoteValue(w, s, ContentsOf(ds, TableKeys(p.tables, s)))
  }

  ghost function ColdOutputs(w: World, p: StagePlan, ds: DatasetState, id: StageId): map<StageId, Table>
    requires Resolvable(Dependencies(p), id)
    decreases Rank(Dependencies(p), id), 0
  {
    DependenciesResolvable(p, id);
    map d | d in p.stages[id].deps && Cold(w, p, ds, d).Some? :: Cold(w, p, ds, d).value
  }

  lemma {:induction false} DependenciesResolvable(p: StagePlan, id: StageId)
    requires Resolvable(Dependencies(p), id)
    ensures id in p.stages
    ensures forall d | d in p.stages[id].deps ::
      Resolvable(Dependencies(p), d) && Rank(Dependencies(p), d) < Rank(Dependencies(p), id)
  {
    DependencyRank(Dependencies(p), id, id);
    forall d | d in p.stages[id].deps
      ensures Resolvable(Dependencies(p), d) && Rank(Dependencies(p), d) < Rank(Dependencies(p), id)
    {
      DependencyRank(Dependencies(p), id, d);
    }
  }

  // ----- one execution -----

  datatype Outcome = Outcome(store: Contents, result: Result<Artifact, ExecError>, cached: bool)

  /** `_dependency_caches` */
  function DependencyCaches(c: Contents, workspace: string, plan: string, deps: seq<StageId>): Caches {
    map d | d in deps ::
      var m := GetManifest(c, ManifestPath(workspace, plan, d)); if m.None? then None else m.value.cache
  }

  function StageDescriptor(
    w: World, p: StagePlan, ds: DatasetState, c: Contents, workspace: string, plan: string, s: StageDef): Descriptor
  {
    Describe(w.keyHash, p.tables, ds.bindings, s, DependencyCaches(c, workspace, plan, s.deps))
  }

  /** The stored outputs of the stages a local stage reads. */
  function StoredOutputs(c: Contents, workspace: string, plan: string, s: StageDef): map<StageId, Table> {
    map d | d in s.inputs.Values && ReadOutput(c, ManifestPath(workspace, plan, d)).Some? ::
      ReadOutput(c, ManifestPath(workspace, plan, d)).value
  }

  /** What the stage would compute now; `fault` is a transient failure of the source or of the local engine. */
  function Compute(
    w: World, p: StagePlan, ds: DatasetState, c: Contents, workspace: string, plan: string, s: StageDef,
    fault: bool): Result<Table, ExecError>
  {
    if s.kind.LocalCompute? then
      if s.sql.None? then Err(MissingSql)
      else if s.dialect != "duckdb" then Err(UnsupportedDialect)
      else
        var outputs := StoredOutputs(c, workspace, plan, s);
        if exists r | r in s.inputs :: s.inputs[r] !in outputs then Err(MissingArtifact)
        else
          var v := LocalValue(w, s, outputs);
          if fault || v.None? then Err(ComputeFailed) else Ok(v.value)
    else if s.subplan.None? then Err(MissingSubplan)
    else if s.subplan.value.sourceId !in w.sources then Err(UnknownSource)
    else
      var v := RemoteValue(w, s, ContentsOf(ds, TableKeys(p.tables, s)));
      if fault || v.None? then Err(SourceFailed) else Ok(v.value)
  }

  /** The first half of `execute_stage`: describe the stage and look it up. */
  function Lookup(w: World, p: StagePlan, ds: DatasetState, c: Contents, workspace: string, plan: string, s: StageDef):
    Option<Artifact>
  {
    GetCached(
      c, ManifestPath(workspace, plan, s.id), Some(StageDescriptor(w, p, ds, c, workspace, plan, s)))
  }

  /** The second half, when the lookup found nothing: execute, and write back under the descriptor. */
  function Finish(
    w: World, p: StagePlan, ds: DatasetState, c: Contents, workspace: string, plan: string, s: StageDef,
    d: Descriptor, fault: bool): Outcome
  {
    var v := Compute(w, p, ds, c, workspace, plan, s, fault);
    if v.Err? then Outcome(c, Err(v.error), false)
    else Outcome(Write(w.contentHash, c, workspace, plan, s.id, v.value, Some(d)),
                 Ok(NewArtifact(w.contentHash, workspace, s.id, v.value)), false)
  }

  /** `execute_stage`, with nothing happening in between. */
  function Execute(
    w: World, p: StagePlan, ds: DatasetState, c: Contents, workspace: string, plan: string, s: StageDef,
    fault: bool): Outcome
  {
    var hit := Lookup(w, p, ds, c, workspace, plan, s);
    if hit.Some? then Outcome(c, Ok(hit.value), true)
    else Finish(w, p, ds, c, workspace, plan, s, StageDescriptor(w, p, ds, c, workspace, plan, s), fault)
  }

  // ----- plans a run cannot tell apart -----

  /** The same stage, but for the text its source is asked: the source answers both alike when it has the table. */
  ghost predicate AlikeStages(w: World, x: StageDef, y: StageDef) {
    && x.(subplan := None) == y.(subplan := None)
    && (x.subplan == y.subplan ||
        (x.kind.RemoteScan? && x.subplan.Some? && y.subplan.Some? && AlikeScans(w, x.subplan.value, y.subplan.value)))
  }

  ghost predicate AlikeScans(w: World, x: Subplan, y: Subplan) {
    && x.sourceId == y.sourceId && x.tableKey == y.tableKey
    && forall tables: map<string, Table> | x.tableKey in tables :: w.remote(x, tables) == w.remote(y, tables)
  }

  ghost predicate Alike(w: World, p: StagePlan, q: StagePlan) {
    && p.tables == q.tables && p.stages.Keys == q.stages.Keys
    && forall id | id in p.stages :: AlikeStages(w, p.stages[id], q.stages[id])
  }

  /** Every table a remote stage reads has contents. */
  ghost predicate HasContents(p: StagePlan, ds: DatasetState) {
    forall id | id in p.stages && !p.stages[id].kind.LocalCompute? ::
      forall k | k in TableKeys(p.tables, p.stages[id]) :: k in ds.contents
  }

  lemma {:induction false} AlikeIsReflexive(w: World, p: StagePlan)
    ensures Alike(w, p, p)
  {
  }

  lemma {:induction false} AlikeRemoteValue(w: World, p: StagePlan, q: StagePlan, ds: DatasetState, id: StageId)
    requires Alike(w, p, q) && HasContents(q, ds) && id in p.stages && !p.stages[id].kind.LocalCompute?
    ensures TableKeys(p.tables, p.stages[id]) == TableKeys(q.tables, q.stages[id])
    ensures var tables := ContentsOf(ds, TableKeys(q.tables, q.stages[id]));
      RemoteValue(w, p.stages[id], tables) == RemoteValue(w, q.stages[id], tables)
  {
    assert AlikeStages(w, p.stages[id], q.stages[id]);
  }

  lemma {:induction false} AlikeDependencies(w: World, p: StagePlan, q: StagePlan)
    requires Alike(w, p, q)
    ensures Dependencies(p) == Dependencies(q)
  {
    forall id | id in p.stages ensures p.stages[id].deps == q.stages[id].deps {
      assert AlikeStages(w, p.stages[id], q.stages[id]);
    }
  }

  /** Plans a run cannot tell apart have the same cold values. */
  lemma {:induction false} AlikeCold(w: World, p: StagePlan, q: StagePlan, ds: DatasetState, id: StageId)
    requires Alike(w, p, q) && HasContents(q, ds) && Resolvable(Dependencies(q), id)
    ensures Resolvable(Dependencies(p), id) && Cold(w, p, ds, id) == Cold(w, q, ds, id)
    decreases Rank(Dependencies(q), id)
  {
    AlikeDependencies(w, p, q);
    DependenciesResolvable(q, id);
    assert AlikeStages(w, p.stages[id], q.stages[id]);
    if q.stages[id].kind.LocalCompute? {
      forall d | d in q.stages[id].deps ensures Cold(w, p, ds, d) == Cold(w, q, ds, d) {
        AlikeCold(w, p, q, ds, d);
      }
      assert ColdOutputs(w, p, ds, id) == ColdOutputs(w, q, ds, id);
    } else {
      AlikeRemoteValue(w, p, q, ds, id);
    }
  }

  lemma {:induction false} AlikeCompute(
    w: World, p: StagePlan, q: StagePlan, ds: DatasetState, c: Contents, workspace: string, plan: string, id: StageId,
    fault: bool)
    requires Alike(w, p, q) && HasContents(q, ds) && id in q.stages
    ensures Compute(w, p, ds, c, workspace, plan, p.stages[id], fault) ==
            Compute(w, q, ds, c, workspace, plan, q.stages[id], fault)
  {
    assert AlikeStages(w, p.stages[id], q.stages[id]);
    if !q.stages[id].kind.LocalCompute? { AlikeRemoteValue(w, p, q, ds, id); }
  }

  lemma {:induction false} AlikeDescriptor(
    w: World, p: StagePlan, q: StagePlan, ds: DatasetState, c: Contents, workspace: string, plan: string, id: StageId)
    requires Alike(w, p, q) && id in q.stages
    ensures StageDescriptor(w, p, ds, c, workspace, plan, p.stages[id]) ==
            StageDescriptor(w, q, ds, c, workspace, plan, q.stages[id])
    ensures p.stages[id].id == q.stages[id].id && p.stages[id].kind == q.stages[id].kind
  {
    assert AlikeStages(w, p.stages[id], q.stages[id]);
  }

  /** And executing a stage of one, or finishing it, is doing so with that stage of the other. */
  lemma {:induction false} AlikeExecution(
    w: World, p: StagePlan, q: StagePlan, ds: DatasetState, c: Contents, workspace: string, plan: string, id: StageId,
    fault: bool)
    requires Alike(w, p, q) && HasContents(q, ds) && id in q.stages
    ensures Execute(w, p, ds, c, workspace, plan, p.stages[id], fault) ==
            Execute(w, q, ds, c, workspace, plan, q.stages[id], fault)
    ensures forall d ::
      Finish(w, p, ds, c, workspace, plan, p.stages[id], d, fault) ==
      Finish(w, q, ds, c, workspace, plan, q.stages[id], d, fault)
  {
    AlikeDescriptor(w, p, q, ds, c, workspace, plan, id);
    AlikeCompute(w, p, q, ds, c, workspace, plan, id, fault);
  }

  class StageExecutor {
    const store: ArtifactStore
    const w: World
    const p: StagePlan
    const ds: DatasetState

    constructor (store: ArtifactStore, w: World, p: StagePlan, ds: DatasetState)
      ensures this.store == store && this.w == w && this.p == p && this.ds == ds
    {
      this.store, this.w, this.p, this.ds := store, w, p, ds;
    }

    method DependencyCachesOf(workspace: string, plan: string, s: StageDef) returns (caches: Caches)
      ensures caches == DependencyCaches(store.View(), workspace, plan, s.deps)
    {
      caches := map[];
      for i := 0 to |s.deps|
        invariant caches == DependencyCaches(store.View(), workspace, plan, s.deps[..i])
      {
        var m := store.GetStageOutputManifest(workspace, plan, s.deps[i]);
        caches := caches[s.deps[i] := if m.None? then None else m.value.cache];
        assert s.deps[..i + 1] == s.deps[..i] + [s.deps[i]];
      }
      assert s.deps[..|s.deps|] == s.deps;
    }

    method DescribeStage(s: StageDef, caches: Caches) returns (d: Descriptor)
      ensures d == Describe(w.keyHash, p.tables, ds.bindings, s, caches)
    {
      if s.kind.LocalCompute? {
        d := DescribeLocalStage(w.keyHash, s, caches);
      } else {
        d := FromInputs(w.keyHash, RemoteInputs(ds.bindings, TableKeys(p.tables, s)));
      }
    }

    /** The stored output of every input relation, or None when one is missing. */
    method ReadInputs(workspace: string, plan: string, s: StageDef) returns (relations: Option<map<string, Table>>)
      ensures var outputs := StoredOutputs(store.View(), workspace, plan, s);
        relations ==
          if exists r | r in s.inputs :: s.inputs[r] !in outputs then None
          else Some(map r | r in s.inputs :: outputs[s.inputs[r]])
    {
      ghost var outputs := StoredOutputs(store.View(), workspace, plan, s);
      var found: map<string, Table> := map[];
      var names := s.inputs.Keys;
      while names != {}
        invariant names <= s.inputs.Keys
        invariant Found(s.inputs, outputs, names, found)
        decreases names
      {
        var r :| r in names;
        assert s.inputs[r] in s.inputs.Values;
        var t := store.ReadStageOutput(workspace, plan, s.inputs[r]);
        if t.None? { return None; }
        OneMoreInput(s.inputs, outputs, names, found, r);
        found := found[r := t.value];
        names := names - {r};
      }
      assert found == map r | r in s.inputs :: outputs[s.inputs[r]];
      relations := Some(found);
    }

    /** The inputs not among `left`, each with the output of its stage. */
    static ghost predicate Found(
      inputs: map<string, StageId>, outputs: map<StageId, Table>, left: set<string>, found: map<string, Table>)
    {
      && (forall r | r in inputs && r !in left :: inputs[r] in outputs)
      && found == map r | r in inputs && r !in left :: outputs[inputs[r]]
    }

    static lemma {:induction false} OneMoreInput(
      inputs: map<string, StageId>, outputs: map<StageId, Table>, left: set<string>, found: map<string, Table>,
      r: string)
      requires Found(inputs, outputs, left, found) && r in inputs && r in left && inputs[r] in outputs
      ensures Found(inputs, outputs, left - {r}, found[r := outputs[inputs[r]]])
    {
    }

    /** Register the input relations, then run the SQL of the stage. */
    method RunLocal(workspace: string, plan: string, s: StageDef, fault: bool) returns (v: Result<Table, ExecError>)
      requires s.kind.LocalCompute?
      ensures v == Compute(w, p, ds, store.View(), workspace, plan, s, fault)
    {
      if s.sql.None? { return Err(MissingSql); }
      if s.dialect != "duckdb" { return Err(UnsupportedDialect); }
      var relations := ReadInputs(workspace, plan, s);
      if relations.None? { return Err(MissingArtifact); }
      var result := w.compute(s.sql.value, relations.value);
      v := if fault || result.None? then Err(ComputeFailed) else Ok(result.value);
    }

    /** Ask the registered source for the subplan. */
    method RunRemote(workspace: string, plan: string, s: StageDef, fault: bool) returns (v: Result<Table, ExecError>)
      requires !s.kind.LocalCompute?
      ensures v == Compute(w, p, ds, store.View(), workspace, plan, s, fault)
    {
      if s.subplan.None? { return Err(MissingSubplan); }
      if s.subplan.value.sourceId !in w.sources { return Err(UnknownSource); }
      var result := w.remote(s.subplan.value, ContentsOf(ds, TableKeys(p.tables, s)));
      v := if fault || result.None? then Err(SourceFailed) else Ok(result.value);
    }

    /** Describe the stage and look it up. */
    method LookupStage(workspace: string, plan: string, s: StageDef) returns (hit: Option<Artifact>, d: Descriptor)
      ensures hit == Lookup(w, p, ds, store.View(), workspace, plan, s)
      ensures d == StageDescriptor(w, p, ds, store.View(), workspace, plan, s)
    {
      var caches := DependencyCachesOf(workspace, plan, s);
      d := DescribeStage(s, caches);
      hit := store.GetCachedStageOutput(workspace, plan, s.id, Some(d));
    }

    /** Execute the stage and write back its output. */
    method FinishStage(workspace: string, plan: string, s: StageDef, d: Descriptor, fault: bool)
      returns (result: Result<Artifact, ExecError>)
      requires store.contentHash == w.contentHash
      modifies store
      ensures Outcome(store.View(), result, false) ==
              Finish(w, p, ds, old(store.View()), workspace, plan, s, d, fault)
    {
      var v: Result<Table, ExecError>;
      if s.kind.LocalCompute? {
        v := RunLocal(workspace, plan, s, fault);
      } else {
        v := RunRemote(workspace, plan, s, fault);
      }
      if v.Err? {
        return Err(v.error);
      }
      var a := store.WriteStageOutput(workspace, plan, s.id, v.value, Some(d));
      result := Ok(a);
    }

    method ExecuteStage(workspace: string, plan: string, s: StageDef, fault: bool)
      returns (result: Result<Artifact, ExecError>, cached: bool)
      requires store.contentHash == w.contentHash
      modifies store
      ensures Outcome(store.View(), result, cached) == Execute(w, p, ds, old(store.View()), workspace, plan, s, fault)
    {
      var hit, d := LookupStage(workspace, plan, s);
      if hit.Some? {
        return Ok(hit.value), true;
      }
      result := FinishStage(workspace, plan, s, d, fault);
      cached := false;
    }
  }
}
