/** What a cache key denotes, and why a cached output is the stage's value. */
module CacheMeaning {
  import opened Prelude
  import opened Dag
  import opened Sql
  import opened Plans
  import opened CacheContext
  import opened Store
  import opened Execution

  // ----- assumptions -----

  ghost predicate GoodWorld(w: World) { GoodHash(w.keyHash) && Injective(w.contentHash) }

  /** Plans as the planner builds them: a local stage reads only its dependencies, a remote stage has none. */
  ghost predicate Built(p: StagePlan) {
    forall id | id in p.stages ::
      && p.stages[id].id == id
      && (
        p.stages[id].kind.LocalCompute? ==>
          forall r | r in p.stages[id].inputs :: p.stages[id].inputs[r] in p.stages[id].deps)
      && (!p.stages[id].kind.LocalCompute? ==> p.stages[id].deps == [])
  }

  /** Every table a remote stage reads has a binding: planning looks them all up. */
  ghost predicate PlanBound(p: StagePlan, bindings: map<string, Binding>) {
    forall id | id in p.stages && !p.stages[id].kind.LocalCompute? ::
      forall k | k in TableKeys(p.tables, p.stages[id]) :: k in bindings
  }

  /** For a revision-backed binding the contents of the table are those its freshness key stands for. */
  ghost predicate Coherent(w: World, ds: DatasetState) {
    forall k | k in ds.bindings ::
      && k in ds.contents
      && (RevisionBacked(ds.bindings[k]) ==> ds.contents[k] == w.revision(k, RevisionKey(ds.bindings[k])))
  }

  // ----- the value a key denotes -----

  ghost function Preimage(h: KeyHash, key: string): Option<seq<CacheInput>> {
    if exists inputs :: h(inputs) == key then
      var inputs :| h(inputs) == key;
      Some(inputs)
    else None
  }

  lemma {:induction false} PreimageOfHash(h: KeyHash, inputs: seq<CacheInput>)
    requires GoodHash(h)
    ensures Preimage(h, h(inputs)) == Some(inputs)
  {
  }

  function KeyValue(i: CacheInput): string { if i.freshnessKey.Some? then i.freshnessKey.value else "" }

  ghost function RevisionContents(w: World, keys: seq<string>, inputs: seq<CacheInput>): map<string, Table> {
    if keys == [] || inputs == [] then map[]
    else RevisionContents(w, keys[1..], inputs[1..])[keys[0] := w.revision(keys[0], KeyValue(inputs[0]))]
  }

  /** The key a local stage's inputs carry for one dependency. */
  function DependencyKey(inputs: seq<CacheInput>, d: StageId): Option<string> {
    if inputs == [] then None
    else if inputs[0].DependencyInput? && inputs[0].stageId == d then inputs[0].freshnessKey
    else DependencyKey(inputs[1..], d)
  }

  /** The table a cache key stands for: sources at the named revisions, computed upward through the plan. */
  ghost function Meaning(w: World, p: StagePlan, id: StageId, key: string): Option<Table>
    requires Resolvable(Dependencies(p), id)
    decreases Rank(Dependencies(p), id), 1
  {
    DependencyRank(Dependencies(p), id, id);
    var s, inputs := p.stages[id], Preimage(w.keyHash, key);
    if inputs.None? then None
    else if s.kind.LocalCompute? then LocalValue(w, s, MeaningOutputs(w, p, id, inputs.value))
    else RemoteValue(w, s, RevisionContents(w, TableKeys(p.tables, s), inputs.value))
  }

  ghost function MeaningOutputs(w: World, p: StagePlan, id: StageId, inputs: seq<CacheInput>): map<StageId, Table>
    requires Resolvable(Dependencies(p), id)
    decreases Rank(Dependencies(p), id), 0
  {
    DependenciesResolvable(p, id);
    map d | d in p.stages[id].deps && DependencyKey(inputs, d).Some? &&
      Meaning(w, p, d, DependencyKey(inputs, d).value).Some? ::
      Meaning(w, p, d, DependencyKey(inputs, d).value).value
  }

  // ----- what the store knows -----

  /** A cacheable manifest's key is the hash of its inputs, and its artifact is the value the key denotes. */
  ghost predicate ManifestOk(w: World, p: StagePlan, c: Contents, workspace: string, plan: string, id: StageId) {
    var path := ManifestPath(workspace, plan, id);
    path in c.manifests && c.manifests[path].cache.Some? && c.manifests[path].cache.value.cacheable ==>
      var m := c.manifests[path];
      var d := m.cache.value;
      && d.cacheKey == Some(w.keyHash(d.inputs))
      && Resolvable(Dependencies(p), id)
      && Meaning(w, p, id, d.cacheKey.value).Some?
      && m.artifact.contentHash == w.contentHash(Meaning(w, p, id, d.cacheKey.value).value)
      && m.artifact.workspace == workspace
  }

  /** A stage completed in the current run: its manifest points at its value. */
  ghost predicate DoneOk(
    w: World, p: StagePlan, ds: DatasetState, c: Contents, workspace: string, plan: string, id: StageId)
  {
    var path := ManifestPath(workspace, plan, id);
    && Resolvable(Dependencies(p), id)
    && Cold(w, p, ds, id).Some?
    && path in c.manifests
    && c.manifests[path].artifact.contentHash == w.contentHash(Cold(w, p, ds, id).value)
    && c.manifests[path].artifact.workspace == workspace
  }

  /** The situation in which the scheduler executes a stage: its dependencies are done. */
  ghost predicate Runnable(
    w: World, p: StagePlan, ds: DatasetState, c: Contents, workspace: string, plan: string, id: StageId)
  {
    && GoodWorld(w) && Built(p) && PlanBound(p, ds.bindings) && Coherent(w, ds)
    && ContentAddressed(w.contentHash, c)
    && id in p.stages && Resolvable(Dependencies(p), id)
    && ManifestOk(w, p, c, workspace, plan, id)
    && forall d | d in p.stages[id].deps ::
      ManifestOk(w, p, c, workspace, plan, d) && DoneOk(w, p, ds, c, workspace, plan, d)
  }

  // ----- remote stages -----

  lemma {:induction false} RevisionsAreContents(w: World, ds: DatasetState, keys: seq<string>)
    requires Coherent(w, ds) && forall k | k in keys :: k in ds.bindings
    requires forall i | 0 <= i < |RemoteInputs(ds.bindings, keys)| :: SupportsCache(RemoteInputs(ds.bindings, keys)[i])
    ensures RevisionContents(w, keys, RemoteInputs(ds.bindings, keys)) == ContentsOf(ds, keys)
  {
    if keys != [] {
      var inputs, rest := RemoteInputs(ds.bindings, keys), RemoteInputs(ds.bindings, keys[1..]);
      assert keys[0] in keys;
      assert inputs[1..] == rest;
      forall i | 0 <= i < |rest| ensures SupportsCache(rest[i]) { assert rest[i] == inputs[i + 1]; }
      RevisionsAreContents(w, ds, keys[1..]);
      assert SupportsCache(inputs[0]);
      BindingSupportsIffRevisionBacked(ds.bindings[keys[0]]);
      DescribedKey(ds.bindings[keys[0]]);
      assert ContentsOf(ds, keys) == ContentsOf(ds, keys[1..])[keys[0] := ds.contents[keys[0]]] by {
        assert forall k :: k in keys <==> k == keys[0] || k in keys[1..];
      }
    }
  }

  lemma {:induction false} RemoteKeyMeansCold(
    w: World, p: StagePlan, ds: DatasetState, c: Contents, workspace: string, plan: string, id: StageId)
    requires Runnable(w, p, ds, c, workspace, plan, id) && !p.stages[id].kind.LocalCompute?
    ensures var d := StageDescriptor(w, p, ds, c, workspace, plan, p.stages[id]);
      d.cacheable ==>
        d.cacheKey == Some(w.keyHash(d.inputs)) && Meaning(w, p, id, d.cacheKey.value) == Cold(w, p, ds, id)
  {
    var keys := TableKeys(p.tables, p.stages[id]);
    var inputs := RemoteInputs(ds.bindings, keys);
    CacheableIffAllInputsSupport(w.keyHash, inputs);
    if FromInputs(w.keyHash, inputs).cacheable {
      PreimageOfHash(w.keyHash, inputs);
      RevisionsAreContents(w, ds, keys);
    }
  }

  // ----- local stages -----

  lemma {:induction false} DependencyKeyOf(deps: seq<StageId>, caches: Caches, d: StageId)
    requires d in deps
    ensures DependencyKey(LocalInputs(deps, caches), d) == DependencyInputOf(d, CacheOf(caches, d)).freshnessKey
  {
    var inputs := LocalInputs(deps, caches);
    assert inputs[0] == DependencyInputOf(deps[0], CacheOf(caches, deps[0]));
    if deps[0] != d {
      assert inputs[1..] == LocalInputs(deps[1..], caches);
      DependencyKeyOf(deps[1..], caches, d);
    }
  }

  /** A dependency's cacheable manifest denotes the dependency's value. */
  lemma {:induction false} DependencyKeyMeansCold(
    w: World, p: StagePlan, ds: DatasetState, c: Contents, workspace: string, plan: string, d: StageId)
    requires GoodWorld(w) && ManifestOk(w, p, c, workspace, plan, d) && DoneOk(w, p, ds, c, workspace, plan, d)
    requires var m :=
      GetManifest(c, ManifestPath(workspace, plan, d)); m.Some? && m.value.cache.Some? && m.value.cache.value.cacheable
    ensures var k := GetManifest(c, ManifestPath(workspace, plan, d)).value.cache.value.cacheKey;
      k.Some? && Meaning(w, p, d, k.value) == Cold(w, p, ds, d)
  {
  }

  lemma {:induction false} LocalInputMeansCold(
    w: World, p: StagePlan, ds: DatasetState, c: Contents, workspace: string, plan: string, id: StageId, d: StageId)
    requires Runnable(w, p, ds, c, workspace, plan, id) && p.stages[id].kind.LocalCompute? && d in p.stages[id].deps
    requires var m := CacheOf(DependencyCaches(c, workspace, plan, p.stages[id].deps), d); m.Some? && m.value.cacheable
    ensures Resolvable(Dependencies(p), d)
    ensures var k :=
      DependencyKey(LocalInputs(Sort(p.stages[id].deps), DependencyCaches(c, workspace, plan, p.stages[id].deps)), d);
      k.Some? && Meaning(w, p, d, k.value) == Cold(w, p, ds, d)
  {
    var deps := p.stages[id].deps;
    SortKeepsMembers(deps);
    DependencyKeyOf(Sort(deps), DependencyCaches(c, workspace, plan, deps), d);
    DependencyKeyMeansCold(w, p, ds, c, workspace, plan, d);
  }

  lemma {:induction false} LocalInputsMeanCold(
    w: World, p: StagePlan, ds: DatasetState, id: StageId, inputs: seq<CacheInput>)
    requires Resolvable(Dependencies(p), id)
    requires forall d | d in p.stages[id].deps :: Resolvable(Dependencies(p), d) && DependencyKey(inputs, d).Some?
    requires forall d | d in p.stages[id].deps :: Meaning(w, p, d, DependencyKey(inputs, d).value) == Cold(w, p, ds, d)
    ensures MeaningOutputs(w, p, id, inputs) == ColdOutputs(w, p, ds, id)
  {
  }

  lemma {:induction false} LocalKeyMeansCold(
    w: World, p: StagePlan, ds: DatasetState, c: Contents, workspace: string, plan: string, id: StageId)
    requires Runnable(w, p, ds, c, workspace, plan, id) && p.stages[id].kind.LocalCompute?
    ensures var d := StageDescriptor(w, p, ds, c, workspace, plan, p.stages[id]);
      d.cacheable ==>
        d.cacheKey == Some(w.keyHash(d.inputs)) && Meaning(w, p, id, d.cacheKey.value) == Cold(w, p, ds, id)
  {
    var s := p.stages[id];
    var caches := DependencyCaches(c, workspace, plan, s.deps);
    var inputs := LocalInputs(Sort(s.deps), caches);
    LocalCacheableIff(w.keyHash, s.deps, caches);
    if FromInputs(w.keyHash, inputs).cacheable {
      PreimageOfHash(w.keyHash, inputs);
      forall d | d in s.deps
        ensures Resolvable(Dependencies(p), d)
        ensures DependencyKey(inputs, d).Some? && Meaning(w, p, d, DependencyKey(inputs, d).value) == Cold(w, p, ds, d)
      {
        LocalInputMeansCold(w, p, ds, c, workspace, plan, id, d);
      }
      LocalInputsMeanCold(w, p, ds, id, inputs);
    }
  }

  lemma {:induction false} KeyMeansCold(
    w: World, p: StagePlan, ds: DatasetState, c: Contents, workspace: string, plan: string, id: StageId)
    requires Runnable(w, p, ds, c, workspace, plan, id)
    ensures var d := StageDescriptor(w, p, ds, c, workspace, plan, p.stages[id]);
      d.cacheable ==>
        d.cacheKey == Some(w.keyHash(d.inputs)) && Meaning(w, p, id, d.cacheKey.value) == Cold(w, p, ds, id)
  {
    if p.stages[id].kind.LocalCompute? {
      LocalKeyMeansCold(w, p, ds, c, workspace, plan, id);
    } else {
      RemoteKeyMeansCold(w, p, ds, c, workspace, plan, id);
    }
  }

  // ----- computing on stored outputs -----

  lemma {:induction false} StoredOutputIsCold(
    w: World, p: StagePlan, ds: DatasetState, c: Contents, workspace: string, plan: string, d: StageId)
    requires GoodWorld(w) && ContentAddressed(w.contentHash, c) && DoneOk(w, p, ds, c, workspace, plan, d)
    requires ReadOutput(c, ManifestPath(workspace, plan, d)).Some?
    ensures ReadOutput(c, ManifestPath(workspace, plan, d)) == Cold(w, p, ds, d)
  {
  }

  lemma {:induction false} SameInputsSameLocalValue(
    w: World, s: StageDef, x: map<StageId, Table>, y: map<StageId, Table>)
    requires forall r | r in s.inputs :: s.inputs[r] in x && s.inputs[r] in y && x[s.inputs[r]] == y[s.inputs[r]]
    ensures LocalValue(w, s, x) == LocalValue(w, s, y)
  {
    assert (map r | r in s.inputs :: x[s.inputs[r]]) == map r | r in s.inputs :: y[s.inputs[r]];
  }

  lemma {:induction false} StoredInputsAreCold(
    w: World, p: StagePlan, ds: DatasetState, c: Contents, workspace: string, plan: string, id: StageId)
    requires Runnable(w, p, ds, c, workspace, plan, id) && p.stages[id].kind.LocalCompute?
    requires forall r | r in p.stages[id].inputs ::
      p.stages[id].inputs[r] in StoredOutputs(c, workspace, plan, p.stages[id])
    ensures LocalValue(w, p.stages[id], StoredOutputs(c, workspace, plan, p.stages[id])) == Cold(w, p, ds, id)
  {
    var s := p.stages[id];
    DependenciesResolvable(p, id);
    var x, y := StoredOutputs(c, workspace, plan, s), ColdOutputs(w, p, ds, id);
    forall r | r in s.inputs ensures s.inputs[r] in y && x[s.inputs[r]] == y[s.inputs[r]] {
      assert s.inputs[r] in s.deps;
      StoredOutputIsCold(w, p, ds, c, workspace, plan, s.inputs[r]);
    }
    SameInputsSameLocalValue(w, s, x, y);
  }

  /** A stage that computes anything computes its value. */
  lemma {:induction false} ComputedIsCold(
    w: World, p: StagePlan, ds: DatasetState, c: Contents, workspace: string, plan: string, id: StageId, fault: bool)
    requires Runnable(w, p, ds, c, workspace, plan, id)
    ensures var v := Compute(w, p, ds, c, workspace, plan, p.stages[id], fault);
      v.Ok? ==> Cold(w, p, ds, id) == Some(v.value)
  {
    if p.stages[id].kind.LocalCompute? && Compute(w, p, ds, c, workspace, plan, p.stages[id], fault).Ok? {
      StoredInputsAreCold(w, p, ds, c, workspace, plan, id);
    }
  }

  // ----- one execution -----

  /** A cache hit returns the stage's value. */
  lemma {:induction false} HitIsCold(
    w: World, p: StagePlan, ds: DatasetState, c: Contents, workspace: string, plan: string, id: StageId)
    requires Runnable(w, p, ds, c, workspace, plan, id)
    requires var d := StageDescriptor(w, p, ds, c, workspace, plan, p.stages[id]);
      GetCached(c, ManifestPath(workspace, plan, id), Some(d)).Some?
    ensures DoneOk(w, p, ds, c, workspace, plan, id)
    ensures ReadOutput(c, ManifestPath(workspace, plan, id)) == Cold(w, p, ds, id)
    ensures GetManifest(c, ManifestPath(workspace, plan, id)).value.cache ==
      Some(StageDescriptor(w, p, ds, c, workspace, plan, p.stages[id]))
  {
    var d, path := StageDescriptor(w, p, ds, c, workspace, plan, p.stages[id]), ManifestPath(workspace, plan, id);
    var m := c.manifests[path];
    KeyMeansCold(w, p, ds, c, workspace, plan, id);
    assert m.cache.value.cacheKey == d.cacheKey;
    assert w.keyHash(m.cache.value.inputs) == w.keyHash(d.inputs);
    assert w.contentHash(c.artifacts[KeyOf(m.artifact)]) == m.artifact.contentHash;
  }

  /**
   * What an execution promises: the artifact it returns holds the value of the stage on the current
   * datasets, and the store records it as the stage's output, under the current descriptor.
   */
  ghost predicate SoundOutcome(
    w: World, p: StagePlan, ds: DatasetState, c: Contents, workspace: string, plan: string, id: StageId, o: Outcome)
    requires id in p.stages && Resolvable(Dependencies(p), id)
  {
    o.result.Ok? ==>
      && Cold(w, p, ds, id).Some?
      && KeyOf(o.result.value) in o.store.artifacts
      && o.store.artifacts[KeyOf(o.result.value)] == Cold(w, p, ds, id).value
      && ReadOutput(o.store, ManifestPath(workspace, plan, id)) == Cold(w, p, ds, id)
      && GetManifest(o.store, ManifestPath(workspace, plan, id)) ==
           Some(Manifest(o.result.value, Some(StageDescriptor(w, p, ds, c, workspace, plan, p.stages[id]))))
      && DoneOk(w, p, ds, o.store, workspace, plan, id)
      && ManifestOk(w, p, o.store, workspace, plan, id)
      && ContentAddressed(w.contentHash, o.store)
  }

  /** Finishing a stage under its current descriptor, whatever a lookup would find. */
  lemma {:induction false} FinishIsSound(
    w: World, p: StagePlan, ds: DatasetState, c: Contents, workspace: string, plan: string, id: StageId, fault: bool)
    requires Runnable(w, p, ds, c, workspace, plan, id)
    ensures var d := StageDescriptor(w, p, ds, c, workspace, plan, p.stages[id]);
      SoundOutcome(
        w, p, ds, c, workspace, plan, id, Finish(w, p, ds, c, workspace, plan, p.stages[id], d, fault))
  {
    var d := StageDescriptor(w, p, ds, c, workspace, plan, p.stages[id]);
    var v := Compute(w, p, ds, c, workspace, plan, p.stages[id], fault);
    if v.Ok? {
      ComputedIsCold(w, p, ds, c, workspace, plan, id, fault);
      WriteThenRead(w.contentHash, c, workspace, plan, id, v.value, Some(d));
      KeyMeansCold(w, p, ds, c, workspace, plan, id);
    }
  }

  /** Whatever `execute_stage` returns, from the cache or not, is the value of the stage on the current datasets. */
  lemma {:induction false} ExecutionIsSound(
    w: World, p: StagePlan, ds: DatasetState, c: Contents, workspace: string, plan: string, id: StageId, fault: bool)
    requires Runnable(w, p, ds, c, workspace, plan, id)
    ensures SoundOutcome(
      w, p, ds, c, workspace, plan, id, Execute(w, p, ds, c, workspace, plan, p.stages[id], fault))
  {
    if Lookup(w, p, ds, c, workspace, plan, p.stages[id]).Some? {
      HitIsCold(w, p, ds, c, workspace, plan, id);
    } else {
      FinishIsSound(w, p, ds, c, workspace, plan, id, fault);
    }
  }

  /** A stage that has a value, and whose dependencies can be read, fails only when the outside world does. */
  lemma {:induction false} UnfaultedExecutionSucceeds(
    w: World, p: StagePlan, ds: DatasetState, c: Contents, workspace: string, plan: string, id: StageId)
    requires Runnable(w, p, ds, c, workspace, plan, id) && Cold(w, p, ds, id).Some?
    requires forall d | d in p.stages[id].deps :: ReadOutput(c, ManifestPath(workspace, plan, d)).Some?
    ensures Execute(w, p, ds, c, workspace, plan, p.stages[id], false).result.Ok?
    ensures forall d :: Finish(w, p, ds, c, workspace, plan, p.stages[id], d, false).result.Ok?
  {
    var s := p.stages[id];
    if s.kind.LocalCompute? {
      forall r | r in s.inputs ensures s.inputs[r] in StoredOutputs(c, workspace, plan, s) {
        assert s.inputs[r] in s.deps;
      }
      StoredInputsAreCold(w, p, ds, c, workspace, plan, id);
    }
  }
}
