/** What taints a stage, what a second run costs, and what a new revision invalidates. */
module CacheProperties {
  import opened Prelude
  import opened Dag
  import opened Sql
  import opened Plans
  import opened CacheContext
  import opened Store
  import opened Execution
  import opened CacheMeaning
  import opened CacheHistory

  // ----- volatility taints upward -----

  /** A stage that by itself rules out caching: no inputs, or a source binding that is not revision-backed. */
  ghost predicate Uncacheable(p: StagePlan, bindings: map<string, Binding>, id: StageId)
    requires id in p.stages
  {
    var s := p.stages[id];
    if s.kind.LocalCompute? then s.deps == []
    else
      var keys := TableKeys(p.tables, s);
      keys == [] || exists k :: k in keys && k in bindings && !RevisionBacked(bindings[k])
  }

  /** A dependency chain that ends at a stage that rules out caching. */
  ghost predicate TaintChain(p: StagePlan, bindings: map<string, Binding>, c: seq<StageId>) {
    Chain(Dependencies(p), c) && c[|c| - 1] in p.stages && Uncacheable(p, bindings, c[|c| - 1])
  }

  /** Following dependencies from `id` leads to a stage that rules out caching. */
  ghost predicate Tainted(p: StagePlan, bindings: map<string, Binding>, id: StageId) {
    exists c :: TaintChain(p, bindings, c) && c[0] == id
  }

  lemma {:induction false} RemoteCacheableIff(w: World, p: StagePlan, bindings: map<string, Binding>, id: StageId)
    requires GoodWorld(w) && PlanBound(p, bindings) && Resolvable(Dependencies(p), id)
    requires id in p.stages && !p.stages[id].kind.LocalCompute?
    ensures Ideal(w, p, bindings, id).cacheable <==> !Uncacheable(p, bindings, id)
  {
    var keys := TableKeys(p.tables, p.stages[id]);
    var inputs := RemoteInputs(bindings, keys);
    BoundInputs(bindings, keys);
    CacheableIffAllInputsSupport(w.keyHash, inputs);
    forall i | 0 <= i < |keys| ensures SupportsCache(inputs[i]) <==> RevisionBacked(bindings[keys[i]]) {
      BindingSupportsIffRevisionBacked(bindings[keys[i]]);
    }
    if k :| k in keys && !RevisionBacked(bindings[k]) {
      var i :| 0 <= i < |keys| && keys[i] == k;
      assert !SupportsCache(inputs[i]);
    }
    if i :| 0 <= i < |keys| && !SupportsCache(inputs[i]) {
      assert keys[i] in keys && !RevisionBacked(bindings[keys[i]]);
    }
  }

  lemma {:induction false} IdealKeyIsHash(w: World, p: StagePlan, bindings: map<string, Binding>, id: StageId)
    requires GoodWorld(w) && Resolvable(Dependencies(p), id)
    ensures var d := Ideal(w, p, bindings, id);
      if d.cacheable then d.cacheKey == Some(w.keyHash(d.inputs)) && !Blank(d.cacheKey.value) else d.cacheKey == None
  {
  }

  lemma {:induction false} LocalIdealCacheableIff(w: World, p: StagePlan, bindings: map<string, Binding>, id: StageId)
    requires GoodWorld(w) && Resolvable(Dependencies(p), id) && id in p.stages && p.stages[id].kind.LocalCompute?
    ensures Ideal(w, p, bindings, id).cacheable <==>
      p.stages[id].deps != [] &&
      forall d | d in p.stages[id].deps :: Resolvable(Dependencies(p), d) && Ideal(w, p, bindings, d).cacheable
  {
    DependenciesResolvable(p, id);
    var caches := IdealCaches(w, p, bindings, id);
    LocalCacheableIff(w.keyHash, p.stages[id].deps, caches);
    forall d | d in p.stages[id].deps ensures CacheOf(caches, d) == Some(Ideal(w, p, bindings, d)) {}
    forall d | d in p.stages[id].deps { IdealKeyIsHash(w, p, bindings, d); }
  }

  lemma {:induction false} OwnTaint(w: World, p: StagePlan, bindings: map<string, Binding>, id: StageId)
    requires GoodWorld(w) && PlanBound(p, bindings) && Resolvable(Dependencies(p), id) && id in p.stages
    ensures Uncacheable(p, bindings, id) ==> !Ideal(w, p, bindings, id).cacheable
    ensures !p.stages[id].kind.LocalCompute? && !Uncacheable(p, bindings, id) ==> Ideal(w, p, bindings, id).cacheable
  {
    if p.stages[id].kind.LocalCompute? {
      LocalIdealCacheableIff(w, p, bindings, id);
    } else {
      RemoteCacheableIff(w, p, bindings, id);
    }
  }

  lemma {:induction false} DependencyTaint(
    w: World, p: StagePlan, bindings: map<string, Binding>, id: StageId, d: StageId)
    requires GoodWorld(w) && Built(p) && Resolvable(Dependencies(p), id)
    requires id in p.stages && d in p.stages[id].deps && Resolvable(Dependencies(p), d)
    requires !Ideal(w, p, bindings, d).cacheable
    ensures !Ideal(w, p, bindings, id).cacheable
  {
    LocalIdealCacheableIff(w, p, bindings, id);
  }

  lemma {:induction false} TaintReachesDown(w: World, p: StagePlan, bindings: map<string, Binding>, c: seq<StageId>)
    requires GoodWorld(w) && Built(p) && PlanBound(p, bindings)
    requires TaintChain(p, bindings, c) && Resolvable(Dependencies(p), c[0])
    ensures !Ideal(w, p, bindings, c[0]).cacheable
    decreases |c|
  {
    DependenciesResolvable(p, c[0]);
    if |c| == 1 {
      OwnTaint(w, p, bindings, c[0]);
    } else {
      TailOfChain(Dependencies(p), c);
      assert TaintChain(p, bindings, c[1..]);
      TaintReachesDown(w, p, bindings, c[1..]);
      DependencyTaint(w, p, bindings, c[0], c[1]);
    }
  }

  lemma {:induction false} TaintPassesUp(p: StagePlan, bindings: map<string, Binding>, id: StageId, d: StageId)
    requires id in p.stages && d in p.stages[id].deps && Tainted(p, bindings, d)
    ensures Tainted(p, bindings, id)
  {
    var c :| TaintChain(p, bindings, c) && c[0] == d;
    PrependToChain(Dependencies(p), id, c);
    assert TaintChain(p, bindings, [id] + c);
  }

  lemma {:induction false} UncacheableHasTaint(w: World, p: StagePlan, bindings: map<string, Binding>, id: StageId)
    requires GoodWorld(w) && Built(p) && PlanBound(p, bindings) && Resolvable(Dependencies(p), id)
    requires !Ideal(w, p, bindings, id).cacheable
    ensures Tainted(p, bindings, id)
    decreases Rank(Dependencies(p), id)
  {
    DependenciesResolvable(p, id);
    OwnTaint(w, p, bindings, id);
    if Uncacheable(p, bindings, id) {
      assert TaintChain(p, bindings, [id]) && [id][0] == id;
    } else {
      LocalIdealCacheableIff(w, p, bindings, id);
      var d :| d in p.stages[id].deps && !Ideal(w, p, bindings, d).cacheable;
      UncacheableHasTaint(w, p, bindings, d);
      TaintPassesUp(p, bindings, id, d);
    }
  }

  /** A stage is cacheable exactly when nothing it transitively depends on rules out caching. */
  lemma {:induction false} CacheableIffUntainted(w: World, p: StagePlan, bindings: map<string, Binding>, id: StageId)
    requires GoodWorld(w) && Built(p) && PlanBound(p, bindings) && Resolvable(Dependencies(p), id)
    ensures Ideal(w, p, bindings, id).cacheable <==> !Tainted(p, bindings, id)
  {
    if Tainted(p, bindings, id) {
      var c :| TaintChain(p, bindings, c) && c[0] == id;
      TaintReachesDown(w, p, bindings, c);
    }
    if !Ideal(w, p, bindings, id).cacheable {
      UncacheableHasTaint(w, p, bindings, id);
    }
  }

  /**
   * In any history, the descriptor stored by a stage that ran in an undisturbed run is cacheable
   * exactly when the stage is untainted.
   */
  lemma {:induction false} StoredDescriptorIsUntainted(
    cat: Catalog, w: World, ds: DatasetState, events: seq<Event>, workspace: string, plan: string, id: StageId)
    requires GoodWorld(w) && GoodCatalog(cat) && Coherent(w, ds) && CoherentRevisions(w, events)
    requires var s := Replay(cat, w, ds, events);
      (workspace, plan) in s.runs && s.runs[(workspace, plan)].intact && id in s.runs[(workspace, plan)].done
    ensures var s := Replay(cat, w, ds, events);
      var m := GetManifest(s.store, ManifestPath(workspace, plan, id));
      && plan in cat.plans && m.Some? && m.value.cache.Some?
      && (m.value.cache.value.cacheable <==> !Tainted(cat.plans[plan], s.runs[(workspace, plan)].ds.bindings, id))
  {
    HistoryKeepsInv(cat, w, ds, events);
    var s := Replay(cat, w, ds, events);
    assert RunOk(w, cat.plans[plan], s.store, workspace, plan, s.runs[(workspace, plan)]);
    assert IntactOk(w, cat.plans[plan], s.runs[(workspace, plan)].ds, s.store, workspace, plan, id);
    CacheableIffUntainted(w, cat.plans[plan], s.runs[(workspace, plan)].ds.bindings, id);
  }

  // ----- a new revision -----

  /** A dependency chain that ends at a remote stage. */
  ghost predicate SourceChain(p: StagePlan, c: seq<StageId>) {
    Chain(Dependencies(p), c) && c[|c| - 1] in p.stages && !p.stages[c[|c| - 1]].kind.LocalCompute?
  }

  /** The tables the stage reads are at the same revisions. */
  ghost predicate SameInputs(p: StagePlan, b1: map<string, Binding>, b2: map<string, Binding>, id: StageId)
    requires id in p.stages
  {
    forall k | k in TableKeys(p.tables, p.stages[id]) :: k in b1 && k in b2 && SameRevision(b1[k], b2[k])
  }

  /** Along every dependency chain from `id`, the remote stages read the same revisions. */
  ghost predicate SameSources(p: StagePlan, b1: map<string, Binding>, b2: map<string, Binding>, id: StageId) {
    forall c | SourceChain(p, c) && c[0] == id :: SameInputs(p, b1, b2, c[|c| - 1])
  }

  /** A remote stage that may be cached is described alike exactly when its tables are at the same revisions. */
  lemma {:induction false} DescribedAlikeIffSameInputs(
    w: World, p: StagePlan, b1: map<string, Binding>, b2: map<string, Binding>, id: StageId)
    requires GoodWorld(w) && PlanBound(p, b1) && PlanBound(p, b2)
    requires id in p.stages && !p.stages[id].kind.LocalCompute?
    requires FromInputs(w.keyHash, RemoteInputs(b1, TableKeys(p.tables, p.stages[id]))).cacheable
    ensures var keys := TableKeys(p.tables, p.stages[id]);
      RemoteInputs(b1, keys) == RemoteInputs(b2, keys) <==> SameInputs(p, b1, b2, id)
  {
    var keys := TableKeys(p.tables, p.stages[id]);
    var x, y := RemoteInputs(b1, keys), RemoteInputs(b2, keys);
    BoundInputs(b1, keys);
    BoundInputs(b2, keys);
    CacheableIffAllInputsSupport(w.keyHash, x);
    forall i | 0 <= i < |keys| ensures x[i] == y[i] <==> SameRevision(b1[keys[i]], b2[keys[i]]) {
      BindingSupportsIffRevisionBacked(b1[keys[i]]);
      DescribedAlikeIff(b1[keys[i]], b2[keys[i]]);
    }
    if x == y {
      forall k | k in keys ensures SameRevision(b1[k], b2[k]) { var i :| 0 <= i < |keys| && keys[i] == k; }
    }
    if SameInputs(p, b1, b2, id) {
      forall i | 0 <= i < |keys| ensures x[i] == y[i] { assert keys[i] in keys; }
    }
  }

  lemma {:induction false} SameKeySameDescriptor(
    w: World, p: StagePlan, b1: map<string, Binding>, b2: map<string, Binding>, id: StageId)
    requires GoodWorld(w) && Resolvable(Dependencies(p), id)
    requires Ideal(w, p, b1, id).cacheable && Ideal(w, p, b1, id).cacheKey == Ideal(w, p, b2, id).cacheKey
    ensures Ideal(w, p, b1, id) == Ideal(w, p, b2, id)
  {
  }

  lemma {:induction false} DependencyDescriptors(
    w: World, p: StagePlan, b1: map<string, Binding>, b2: map<string, Binding>, id: StageId, d: StageId)
    requires GoodWorld(w) && Resolvable(Dependencies(p), id) && id in p.stages && p.stages[id].kind.LocalCompute?
    requires Ideal(w, p, b1, id).cacheable && Ideal(w, p, b1, id) == Ideal(w, p, b2, id) && d in p.stages[id].deps
    ensures Resolvable(Dependencies(p), d) && Ideal(w, p, b1, d).cacheable && Ideal(w, p, b1, d) == Ideal(w, p, b2, d)
  {
    DependenciesResolvable(p, id);
    LocalIdealCacheableIff(w, p, b1, id);
    LocalIdealCacheableIff(w, p, b2, id);
    var x, y := IdealCaches(w, p, b1, id), IdealCaches(w, p, b2, id);
    var deps := Sort(p.stages[id].deps);
    SortKeepsMembers(p.stages[id].deps);
    CacheableIffAllInputsSupport(w.keyHash, LocalInputs(deps, x));
    CacheableIffAllInputsSupport(w.keyHash, LocalInputs(deps, y));
    DependencyKeyOf(deps, x, d);
    DependencyKeyOf(deps, y, d);
    assert CacheOf(x, d) == Some(Ideal(w, p, b1, d)) && CacheOf(y, d) == Some(Ideal(w, p, b2, d));
    SameKeySameDescriptor(w, p, b1, b2, d);
  }

  lemma {:induction false} SameDescriptorSameSources(
    w: World, p: StagePlan, b1: map<string, Binding>, b2: map<string, Binding>, c: seq<StageId>)
    requires GoodWorld(w) && Built(p) && SourceChain(p, c) && Resolvable(Dependencies(p), c[0])
    requires PlanBound(p, b1) && PlanBound(p, b2)
    requires Ideal(w, p, b1, c[0]).cacheable && Ideal(w, p, b1, c[0]) == Ideal(w, p, b2, c[0])
    ensures SameInputs(p, b1, b2, c[|c| - 1])
    decreases |c|
  {
    DependenciesResolvable(p, c[0]);
    if |c| > 1 {
      TailOfChain(Dependencies(p), c);
      assert SourceChain(p, c[1..]);
      DependencyDescriptors(w, p, b1, b2, c[0], c[1]);
      SameDescriptorSameSources(w, p, b1, b2, c[1..]);
    } else {
      CacheableIffAllInputsSupport(w.keyHash, RemoteInputs(b1, TableKeys(p.tables, p.stages[c[0]])));
      CacheableIffAllInputsSupport(w.keyHash, RemoteInputs(b2, TableKeys(p.tables, p.stages[c[0]])));
      DescribedAlikeIffSameInputs(w, p, b1, b2, c[0]);
    }
  }

  lemma {:induction false} SameSourcesBelow(
    p: StagePlan, b1: map<string, Binding>, b2: map<string, Binding>, id: StageId, d: StageId)
    requires id in p.stages && d in p.stages[id].deps && SameSources(p, b1, b2, id)
    ensures SameSources(p, b1, b2, d)
  {
    forall c | SourceChain(p, c) && c[0] == d ensures SameInputs(p, b1, b2, c[|c| - 1]) {
      PrependToChain(Dependencies(p), id, c);
      assert SourceChain(p, [id] + c);
    }
  }

  lemma {:induction false} SameDependenciesSameDescriptor(
    w: World, p: StagePlan, b1: map<string, Binding>, b2: map<string, Binding>, id: StageId)
    requires Resolvable(Dependencies(p), id) && id in p.stages && p.stages[id].kind.LocalCompute?
    requires forall d | d in p.stages[id].deps ::
      Resolvable(Dependencies(p), d) && Ideal(w, p, b1, d) == Ideal(w, p, b2, d)
    ensures Ideal(w, p, b1, id) == Ideal(w, p, b2, id)
  {
    assert IdealCaches(w, p, b1, id) == IdealCaches(w, p, b2, id);
  }

  lemma {:induction false} SameInputsSameDescriptor(
    w: World, p: StagePlan, b1: map<string, Binding>, b2: map<string, Binding>, id: StageId)
    requires GoodWorld(w) && PlanBound(p, b1) && PlanBound(p, b2)
    requires Resolvable(Dependencies(p), id) && id in p.stages && !p.stages[id].kind.LocalCompute?
    requires Ideal(w, p, b1, id).cacheable && SameInputs(p, b1, b2, id)
    ensures Ideal(w, p, b1, id) == Ideal(w, p, b2, id)
  {
    DescribedAlikeIffSameInputs(w, p, b1, b2, id);
  }

  lemma {:induction false} SameSourcesSameDescriptor(
    w: World, p: StagePlan, b1: map<string, Binding>, b2: map<string, Binding>, id: StageId)
    requires GoodWorld(w) && PlanBound(p, b1) && PlanBound(p, b2)
    requires Resolvable(Dependencies(p), id) && Ideal(w, p, b1, id).cacheable && SameSources(p, b1, b2, id)
    ensures Ideal(w, p, b1, id) == Ideal(w, p, b2, id)
    decreases Rank(Dependencies(p), id)
  {
    DependenciesResolvable(p, id);
    if p.stages[id].kind.LocalCompute? {
      LocalIdealCacheableIff(w, p, b1, id);
      forall d | d in p.stages[id].deps
        ensures Resolvable(Dependencies(p), d) && Ideal(w, p, b1, d) == Ideal(w, p, b2, d)
      {
        SameSourcesBelow(p, b1, b2, id, d);
        SameSourcesSameDescriptor(w, p, b1, b2, d);
      }
      SameDependenciesSameDescriptor(w, p, b1, b2, id);
    } else {
      assert SourceChain(p, [id]) && [id][0] == id;
      SameInputsSameDescriptor(w, p, b1, b2, id);
    }
  }

  /**
   * Two dataset states give a cacheable stage the same key exactly when every source it
   * transitively reads is at the same revision.
   */
  lemma {:induction false} SameKeyIffSameSources(
    w: World, p: StagePlan, b1: map<string, Binding>, b2: map<string, Binding>, id: StageId)
    requires GoodWorld(w) && Built(p) && Resolvable(Dependencies(p), id) && Ideal(w, p, b1, id).cacheable
    requires PlanBound(p, b1) && PlanBound(p, b2)
    ensures Ideal(w, p, b1, id).cacheKey == Ideal(w, p, b2, id).cacheKey <==> SameSources(p, b1, b2, id)
  {
    if Ideal(w, p, b1, id).cacheKey == Ideal(w, p, b2, id).cacheKey {
      SameKeySameDescriptor(w, p, b1, b2, id);
      forall c | SourceChain(p, c) && c[0] == id ensures SameInputs(p, b1, b2, c[|c| - 1]) {
        SameDescriptorSameSources(w, p, b1, b2, c);
      }
    }
    if SameSources(p, b1, b2, id) { SameSourcesSameDescriptor(w, p, b1, b2, id); }
  }

  /**
   * A stage whose manifest comes from an earlier run, executed in an undisturbed run on other
   * bindings: it is served from the cache exactly when it was cacheable and nothing it
   * transitively reads has changed.
   */
  lemma {:induction false} OldManifestHitsIffUnchanged(
    w: World, p: StagePlan, before: map<string, Binding>, ds: DatasetState, c: Contents,
    workspace: string, plan: string, id: StageId, fault: bool)
    requires GoodWorld(w) && Built(p) && PlanBound(p, before) && PlanBound(p, ds.bindings)
    requires Resolvable(Dependencies(p), id) && id in p.stages
    requires forall d | d in p.stages[id].deps :: IntactOk(w, p, ds, c, workspace, plan, d)
    requires GetManifest(c, ManifestPath(workspace, plan, id)).Some?
    requires GetManifest(c, ManifestPath(workspace, plan, id)).value.cache == Some(Ideal(w, p, before, id))
    ensures Execute(w, p, ds, c, workspace, plan, p.stages[id], fault).cached <==> Unchanged(p, before, ds.bindings, id)
  {
    IntactDescriptorIsIdeal(w, p, ds, c, workspace, plan, id);
    CacheableIffUntainted(w, p, before, id);
    HitIffSameKey(w, p, before, ds.bindings, id);
    if Ideal(w, p, before, id).cacheable { SameKeyIffSameSources(w, p, before, ds.bindings, id); }
  }

  /** Comparing manifests with keys comes down to comparing ideal descriptors. */
  lemma {:induction false} HitIffSameKey(
    w: World, p: StagePlan, b1: map<string, Binding>, b2: map<string, Binding>, id: StageId)
    requires GoodWorld(w) && Resolvable(Dependencies(p), id)
    ensures var d1, d2 := Ideal(w, p, b1, id), Ideal(w, p, b2, id);
      (HasKey(d2) && HasKey(d1) && d1.cacheKey == d2.cacheKey) <==> d1.cacheable && d1.cacheKey == d2.cacheKey
  {
    IdealKeyIsHash(w, p, b1, id);
    IdealKeyIsHash(w, p, b2, id);
  }

  /** Nothing rules out caching the stage, and every source it transitively reads is at the same revision. */
  ghost predicate Unchanged(p: StagePlan, before: map<string, Binding>, after: map<string, Binding>, id: StageId) {
    !Tainted(p, before, id) && SameSources(p, before, after, id)
  }

  lemma {:induction false} SameBindingsSameSources(p: StagePlan, bindings: map<string, Binding>, id: StageId)
    requires PlanBound(p, bindings)
    ensures SameSources(p, bindings, bindings, id)
  {
    forall c | SourceChain(p, c) && c[0] == id ensures SameInputs(p, bindings, bindings, c[|c| - 1]) {}
  }

  /** Along some dependency chain the stage reads this table. */
  ghost predicate Reads(p: StagePlan, id: StageId, k: string) {
    exists c :: SourceChain(p, c) && c[0] == id && k in TableKeys(p.tables, p.stages[c[|c| - 1]])
  }

  /** The bindings, with a new freshness key for one table and everything else as it was. */
  function WithKey(bindings: map<string, Binding>, k: string, key: string): map<string, Binding>
    requires k in bindings
  {
    bindings[k := bindings[k].(freshness := Some(Freshness(RevisionPolicy, Some(key))))]
  }

  /** A new freshness key of one table changes exactly the stages that read it, directly or not. */
  lemma {:induction false} NewKeyChangesItsReaders(
    p: StagePlan, before: map<string, Binding>, k: string, key: string, id: StageId)
    requires PlanBound(p, before) && k in before && RevisionBacked(before[k])
    requires !Blank(key) && Strip(key) != RevisionKey(before[k])
    ensures Unchanged(p, before, WithKey(before, k, key), id) <==> !Tainted(p, before, id) && !Reads(p, id, k)
  {
    if Reads(p, id, k) {
      ReaderIsChanged(p, before, k, key, id);
    } else {
      OthersAreNot(p, before, k, key, id);
    }
  }

  lemma {:induction false} ReaderIsChanged(
    p: StagePlan, before: map<string, Binding>, k: string, key: string, id: StageId)
    requires k in before && RevisionBacked(before[k]) && !Blank(key) && Strip(key) != RevisionKey(before[k])
    requires Reads(p, id, k)
    ensures !SameSources(p, before, WithKey(before, k, key), id)
  {
    var after := WithKey(before, k, key);
    assert !SameRevision(before[k], after[k]);
    var c :| SourceChain(p, c) && c[0] == id && k in TableKeys(p.tables, p.stages[c[|c| - 1]]);
    assert !SameInputs(p, before, after, c[|c| - 1]);
  }

  lemma {:induction false} OthersAreNot(
    p: StagePlan, before: map<string, Binding>, k: string, key: string, id: StageId)
    requires PlanBound(p, before) && k in before && !Reads(p, id, k)
    ensures SameSources(p, before, WithKey(before, k, key), id)
  {
    forall c | SourceChain(p, c) && c[0] == id
      ensures SameInputs(p, before, WithKey(before, k, key), c[|c| - 1])
    {
    }
  }

  // ----- a later run of the same plan -----

  /** A complete, undisturbed run of the plan. */
  ghost predicate CompleteRun(cat: Catalog, w: World, s: State, workspace: string, plan: string) {
    && Inv(cat, w, s) && (workspace, plan) in s.runs
    && s.runs[(workspace, plan)].intact && s.runs[(workspace, plan)].done == cat.plans[plan].stages.Keys
  }

  /** The datasets are revised and the plan begins again. */
  ghost function BeginAgain(
    cat: Catalog, w: World, s0: State, ds: DatasetState, workspace: string, plan: string, p: StagePlan): State
  {
    ReplayFrom(cat, w, s0, [Revise(ds), Begin(workspace, plan, p)])
  }

  /** Runs of other plans, revisions and stages of this plan, in any order. */
  predicate Undisturbed(events: seq<Event>, workspace: string, plan: string) {
    forall e | e in events :: !e.Lose? && !(e.Begin? && e.workspace == workspace && e.plan == plan)
  }

  ghost predicate UnchangedIn(cat: Catalog, s0: State, ds: DatasetState, workspace: string, plan: string, id: StageId)
    requires (workspace, plan) in s0.runs && plan in cat.plans
  {
    Unchanged(cat.plans[plan], s0.runs[(workspace, plan)].ds.bindings, ds.bindings, id)
  }

  /**
   * During the later run: a stage not yet done, or unchanged since, still has the manifest of the
   * earlier run; and no source was asked for an unchanged stage.
   */
  ghost predicate Renewing(
    cat: Catalog, w: World, s0: State, ds: DatasetState, s: State, workspace: string, plan: string)
    requires (workspace, plan) in s0.runs && plan in cat.plans
  {
    && Inv(cat, w, s) && (workspace, plan) in s.runs
    && s.runs[(workspace, plan)].ds == ds && s.runs[(workspace, plan)].intact
    && KeepsArtifacts(s0.store, s.store)
    && (forall id | id in s.runs[(workspace, plan)].fetching :: !UnchangedIn(cat, s0, ds, workspace, plan, id))
    && forall id | id in cat.plans[plan].stages ::
         id !in s.runs[(workspace, plan)].done || UnchangedIn(cat, s0, ds, workspace, plan, id) ==>
         SameManifest(s0.store, s.store, ManifestPath(workspace, plan, id))
  }

  /** The execution changed nothing and returned the artifact that `s0` has at this path. */
  predicate ReturnsOld(s0: State, s: State, o: Outcome, path: Path) {
    o.store == s.store && path in s0.store.manifests && o.result == Ok(s0.store.manifests[path].artifact)
  }

  lemma {:induction false} OldManifestStands(
    w: World, p: StagePlan, ds0: DatasetState, c0: Contents, c: Contents, workspace: string, plan: string, id: StageId)
    requires IntactOk(w, p, ds0, c0, workspace, plan, id)
    requires KeepsArtifacts(c0, c) && SameManifest(c0, c, ManifestPath(workspace, plan, id))
    ensures var path := ManifestPath(workspace, plan, id);
      && path in c0.manifests && GetManifest(c, path) == Some(c0.manifests[path])
      && c0.manifests[path].cache == Some(Ideal(w, p, ds0.bindings, id))
  {
  }

  /**
   * Such a stage is served from the cache exactly when it is unchanged, and then with the
   * artifact of the earlier run.
   */
  lemma {:induction false} RenewedStage(
    cat: Catalog, w: World, s0: State, ds: DatasetState, s: State, workspace: string, plan: string, id: StageId,
    fault: bool)
    requires CompleteRun(cat, w, s0, workspace, plan) && Renewing(cat, w, s0, ds, s, workspace, plan)
    requires CanRun(cat, s, workspace, plan, id)
    requires id !in s.runs[(workspace, plan)].done || UnchangedIn(cat, s0, ds, workspace, plan, id)
    ensures var o := StageOutcome(cat, w, s, workspace, plan, id, fault);
      && (o.cached <==> UnchangedIn(cat, s0, ds, workspace, plan, id))
      && (o.cached ==> ReturnsOld(s0, s, o, ManifestPath(workspace, plan, id)))
  {
    var p, r0, r := cat.plans[plan], s0.runs[(workspace, plan)], s.runs[(workspace, plan)];
    OutcomeIsTheCatalogs(cat, w, s, workspace, plan, id, fault);
    DoneIsIntact(cat, w, s0, workspace, plan, id);
    DependenciesIntact(cat, w, s, workspace, plan, id);
    assert RunOk(w, p, s.store, workspace, plan, r);
    RenewedExecution(w, p, r0.ds, s0.store, ds, s.store, workspace, plan, id, fault);
  }

  lemma {:induction false} DependenciesIntact(
    cat: Catalog, w: World, s: State, workspace: string, plan: string, id: StageId)
    requires Inv(cat, w, s) && CanRun(cat, s, workspace, plan, id) && s.runs[(workspace, plan)].intact
    ensures Built(cat.plans[plan])
    ensures forall d | d in cat.plans[plan].stages[id].deps ::
      IntactOk(w, cat.plans[plan], s.runs[(workspace, plan)].ds, s.store, workspace, plan, d)
  {
    forall d | d in cat.plans[plan].stages[id].deps
      ensures IntactOk(w, cat.plans[plan], s.runs[(workspace, plan)].ds, s.store, workspace, plan, d)
    {
      DoneIsIntact(cat, w, s, workspace, plan, d);
    }
  }

  /** One execution, on a store that has kept the stage's manifest since an earlier run on `ds0`. */
  lemma {:induction false} RenewedExecution(
    w: World, p: StagePlan, ds0: DatasetState, c0: Contents, ds: DatasetState, c: Contents,
    workspace: string, plan: string, id: StageId, fault: bool)
    requires GoodWorld(w) && Built(p) && PlanBound(p, ds0.bindings) && PlanBound(p, ds.bindings) && id in p.stages
    requires IntactOk(w, p, ds0, c0, workspace, plan, id)
    requires KeepsArtifacts(c0, c) && SameManifest(c0, c, ManifestPath(workspace, plan, id))
    requires forall d | d in p.stages[id].deps :: IntactOk(w, p, ds, c, workspace, plan, d)
    ensures var o, path :=
      Execute(w, p, ds, c, workspace, plan, p.stages[id], fault), ManifestPath(workspace, plan, id);
      && (o.cached <==> Unchanged(p, ds0.bindings, ds.bindings, id))
      && (o.cached ==> o.store == c && path in c0.manifests && o.result == Ok(c0.manifests[path].artifact))
  {
    OldManifestStands(w, p, ds0, c0, c, workspace, plan, id);
    OldManifestHitsIffUnchanged(w, p, ds0.bindings, ds, c, workspace, plan, id, fault);
  }

  lemma {:induction false} DoneIsIntact(cat: Catalog, w: World, s: State, workspace: string, plan: string, id: StageId)
    requires Inv(cat, w, s) && (workspace, plan) in s.runs && s.runs[(workspace, plan)].intact
    requires id in s.runs[(workspace, plan)].done
    ensures plan in cat.plans && PlanBound(cat.plans[plan], s.runs[(workspace, plan)].ds.bindings)
    ensures IntactOk(w, cat.plans[plan], s.runs[(workspace, plan)].ds, s.store, workspace, plan, id)
  {
    assert RunOk(w, cat.plans[plan], s.store, workspace, plan, s.runs[(workspace, plan)]);
  }

  lemma {:induction false} BeginAgainRenews(
    cat: Catalog, w: World, s0: State, ds: DatasetState, workspace: string, plan: string, p: StagePlan)
    requires CompleteRun(cat, w, s0, workspace, plan) && Coherent(w, ds)
    requires CanBegin(cat, w, s0.(ds := ds), workspace, plan, p)
    ensures Renewing(cat, w, s0, ds, BeginAgain(cat, w, s0, ds, workspace, plan, p), workspace, plan)
  {
    var events := [Revise(ds), Begin(workspace, plan, p)];
    assert events[..1] == [Revise(ds)] && events[..1][..0] == [];
    assert ReplayFrom(cat, w, s0, events[..1]) == s0.(ds := ds);
    StepKeepsInv(cat, w, s0, events[0]);
    BeginRenews(cat, w, s0, s0.(ds := ds), workspace, plan, p);
  }

  /** The plan begins again on a store that has kept its manifests and artifacts. */
  lemma {:induction false} BeginRenews(
    cat: Catalog, w: World, s0: State, s: State, workspace: string, plan: string, p: StagePlan)
    requires CompleteRun(cat, w, s0, workspace, plan) && Inv(cat, w, s) && KeepsArtifacts(s0.store, s.store)
    requires CanBegin(cat, w, s, workspace, plan, p)
    requires forall id | id in cat.plans[plan].stages ::
      SameManifest(s0.store, s.store, ManifestPath(workspace, plan, id))
    ensures Renewing(cat, w, s0, s.ds, Apply(cat, w, s, Begin(workspace, plan, p)), workspace, plan)
  {
    StepKeepsInv(cat, w, s, Begin(workspace, plan, p));
  }

  /** A step that ends an execution, of this plan or another, leaves the run of this plan standing. */
  lemma {:induction false} EndKeepsRun(cat: Catalog, w: World, s: State, e: Event, workspace: string, plan: string)
    requires Inv(cat, w, s) && (workspace, plan) in s.runs && Ends(cat, s, e)
    ensures KeepsRun(s, Apply(cat, w, s, e), workspace, plan)
    ensures Apply(cat, w, s, e).runs[(workspace, plan)].fetching.Keys <= s.runs[(workspace, plan)].fetching.Keys
  {
    EndKeepsArtifacts(cat, w, s, e);
    ConcludedKeepsRun(s, e.workspace, e.plan, e.id, OutcomeOf(cat, w, s, e), workspace, plan);
  }

  lemma {:induction false} ConcludedKeepsRun(
    s: State, ws: string, pl: string, id: StageId, o: Outcome, workspace: string, plan: string)
    requires (ws, pl) in s.runs && (workspace, plan) in s.runs && KeepsArtifacts(s.store, o.store)
    ensures var s' := Concluded(s, ws, pl, id, o);
      && KeepsRun(s, s', workspace, plan)
      && s'.runs[(workspace, plan)].fetching.Keys <= s.runs[(workspace, plan)].fetching.Keys
  {
  }

  ghost predicate KeepsRun(s: State, s': State, workspace: string, plan: string) {
    && (workspace, plan) in s.runs && (workspace, plan) in s'.runs && KeepsArtifacts(s.store, s'.store)
    && s'.runs[(workspace, plan)].ds == s.runs[(workspace, plan)].ds
    && s'.runs[(workspace, plan)].intact == s.runs[(workspace, plan)].intact
    && s.runs[(workspace, plan)].done <= s'.runs[(workspace, plan)].done
  }

  /** Which stages a step may add to those whose sources have been asked. */
  ghost predicate FetchesBy(cat: Catalog, w: World, s: State, s': State, e: Event, workspace: string, plan: string)
    requires (workspace, plan) in s.runs && (workspace, plan) in s'.runs
  {
    forall id | id in s'.runs[(workspace, plan)].fetching ::
      || id in s.runs[(workspace, plan)].fetching
      || (e == Fetch(workspace, plan, id) && CanFetch(cat, w, s, workspace, plan, id))
  }

  lemma {:induction false} FetchKeepsRun(
    cat: Catalog, w: World, s: State, ws: string, pl: string, id: StageId, workspace: string, plan: string)
    requires (workspace, plan) in s.runs && CanFetch(cat, w, s, ws, pl, id)
    ensures var s' := Fetching(w, s, ws, pl, id);
      KeepsRun(s, s', workspace, plan) && FetchesBy(cat, w, s, s', Fetch(ws, pl, id), workspace, plan)
  {
  }

  lemma {:induction false} StepKeepsRun(cat: Catalog, w: World, s: State, e: Event, workspace: string, plan: string)
    requires Inv(cat, w, s) && (workspace, plan) in s.runs && Undisturbed([e], workspace, plan)
    ensures KeepsRun(s, Apply(cat, w, s, e), workspace, plan)
    ensures FetchesBy(cat, w, s, Apply(cat, w, s, e), e, workspace, plan)
  {
    assert e in [e];
    if Ends(cat, s, e) {
      EndKeepsRun(cat, w, s, e, workspace, plan);
    } else if e.Fetch? {
      if CanFetch(cat, w, s, e.workspace, e.plan, e.id) {
        FetchKeepsRun(cat, w, s, e.workspace, e.plan, e.id, workspace, plan);
      }
    } else {
      NoExecutionKeepsRun(cat, w, s, e, workspace, plan);
    }
  }

  lemma {:induction false} NoExecutionKeepsRun(
    cat: Catalog, w: World, s: State, e: Event, workspace: string, plan: string)
    requires (workspace, plan) in s.runs && !Ends(cat, s, e) && !e.Fetch? && !e.Lose?
    requires !(e.Begin? && e.workspace == workspace && e.plan == plan)
    ensures var s' := Apply(cat, w, s, e);
      KeepsRun(s, s', workspace, plan) && FetchesBy(cat, w, s, s', e, workspace, plan)
  {
  }

  /** Only a step that ends an execution of the stage, and changes the store, can touch its manifest. */
  lemma {:induction false} StepKeepsManifest(
    cat: Catalog, w: World, s: State, e: Event, workspace: string, plan: string, id: StageId)
    requires Inv(cat, w, s) && InCatalog(cat, workspace, plan, id)
    requires Ends(cat, s, e) ==>
      (e.workspace, e.plan, e.id) != (workspace, plan, id) || OutcomeOf(cat, w, s, e).store == s.store
    ensures SameManifest(s.store, Apply(cat, w, s, e).store, ManifestPath(workspace, plan, id))
  {
    if Ends(cat, s, e) {
      OutcomeIsGood(cat, w, s, e);
      assert InCatalog(cat, e.workspace, e.plan, e.id);
    }
  }

  lemma {:induction false} StepKeepsRenewing(
    cat: Catalog, w: World, s0: State, ds: DatasetState, s: State, e: Event, workspace: string, plan: string)
    requires CompleteRun(cat, w, s0, workspace, plan) && Renewing(cat, w, s0, ds, s, workspace, plan)
    requires Undisturbed([e], workspace, plan) && (e.Revise? ==> Coherent(w, e.ds))
    ensures Renewing(cat, w, s0, ds, Apply(cat, w, s, e), workspace, plan)
  {
    var s' := Apply(cat, w, s, e);
    StepKeepsInv(cat, w, s, e);
    StepKeepsRun(cat, w, s, e, workspace, plan);
    FetchesStayRenewing(cat, w, s0, ds, s, e, workspace, plan);
    forall id | id in cat.plans[plan].stages &&
      (id !in s'.runs[(workspace, plan)].done || UnchangedIn(cat, s0, ds, workspace, plan, id))
      ensures SameManifest(s0.store, s'.store, ManifestPath(workspace, plan, id))
    {
      RenewedRunIsListed(cat, w, s, workspace, plan);
      StageKeepsOldManifest(cat, w, s0, ds, s, e, workspace, plan, id);
    }
  }

  lemma {:induction false} RenewedRunIsListed(cat: Catalog, w: World, s: State, workspace: string, plan: string)
    requires Inv(cat, w, s) && (workspace, plan) in s.runs
    ensures workspace in cat.workspaces && plan in cat.plans
  {
  }

  lemma {:induction false} FetchMissed(
    cat: Catalog, w: World, s: State, workspace: string, plan: string, id: StageId, fault: bool)
    requires CanFetch(cat, w, s, workspace, plan, id)
    ensures !StageOutcome(cat, w, s, workspace, plan, id, fault).cached
  {
  }

  /** The source of an unchanged stage is not asked: the lookup finds its old output. */
  lemma {:induction false} FetchedIsChanged(
    cat: Catalog, w: World, s0: State, ds: DatasetState, s: State, workspace: string, plan: string, id: StageId)
    requires CompleteRun(cat, w, s0, workspace, plan) && Renewing(cat, w, s0, ds, s, workspace, plan)
    requires CanFetch(cat, w, s, workspace, plan, id)
    ensures !UnchangedIn(cat, s0, ds, workspace, plan, id)
  {
    FetchMissed(cat, w, s, workspace, plan, id, false);
    if UnchangedIn(cat, s0, ds, workspace, plan, id) {
      RenewedStage(cat, w, s0, ds, s, workspace, plan, id, false);
    }
  }

  lemma {:induction false} FetchesStayRenewing(
    cat: Catalog, w: World, s0: State, ds: DatasetState, s: State, e: Event, workspace: string, plan: string)
    requires CompleteRun(cat, w, s0, workspace, plan) && Renewing(cat, w, s0, ds, s, workspace, plan)
    requires Undisturbed([e], workspace, plan) && KeepsRun(s, Apply(cat, w, s, e), workspace, plan)
    ensures forall id | id in Apply(cat, w, s, e).runs[(workspace, plan)].fetching ::
      !UnchangedIn(cat, s0, ds, workspace, plan, id)
  {
    StepKeepsRun(cat, w, s, e, workspace, plan);
    forall id | id in Apply(cat, w, s, e).runs[(workspace, plan)].fetching
      ensures !UnchangedIn(cat, s0, ds, workspace, plan, id)
    {
      if id !in s.runs[(workspace, plan)].fetching { FetchedIsChanged(cat, w, s0, ds, s, workspace, plan, id); }
    }
  }

  /** An unchanged stage is not written again, and a failed execution writes nothing. */
  lemma {:induction false} OwnStageKeepsStore(
    cat: Catalog, w: World, s0: State, ds: DatasetState, s: State, workspace: string, plan: string, e: Event)
    requires CompleteRun(cat, w, s0, workspace, plan) && Renewing(cat, w, s0, ds, s, workspace, plan)
    requires Ends(cat, s, e) && (e.workspace, e.plan) == (workspace, plan)
    requires UnchangedIn(cat, s0, ds, workspace, plan, e.id) || OutcomeOf(cat, w, s, e).result.Err?
    ensures OutcomeOf(cat, w, s, e).store == s.store
  {
    OutcomeIsGood(cat, w, s, e);
    if UnchangedIn(cat, s0, ds, workspace, plan, e.id) {
      RenewedStage(cat, w, s0, ds, s, workspace, plan, e.id, e.fault);
    }
  }

  lemma {:induction false} StageKeepsOldManifest(
    cat: Catalog, w: World, s0: State, ds: DatasetState, s: State, e: Event, workspace: string, plan: string,
    id: StageId)
    requires CompleteRun(cat, w, s0, workspace, plan) && Renewing(cat, w, s0, ds, s, workspace, plan)
    requires InCatalog(cat, workspace, plan, id) && KeepsRun(s, Apply(cat, w, s, e), workspace, plan)
    requires id !in Apply(cat, w, s, e).runs[(workspace, plan)].done || UnchangedIn(cat, s0, ds, workspace, plan, id)
    ensures SameManifest(s0.store, Apply(cat, w, s, e).store, ManifestPath(workspace, plan, id))
  {
    if Ends(cat, s, e) && (e.workspace, e.plan, e.id) == (workspace, plan, id) {
      OwnEndKeepsStore(cat, w, s0, ds, s, e, workspace, plan);
    }
    StepKeepsManifest(cat, w, s, e, workspace, plan, id);
  }

  lemma {:induction false} OwnEndKeepsStore(
    cat: Catalog, w: World, s0: State, ds: DatasetState, s: State, e: Event, workspace: string, plan: string)
    requires CompleteRun(cat, w, s0, workspace, plan) && Renewing(cat, w, s0, ds, s, workspace, plan)
    requires Ends(cat, s, e) && (e.workspace, e.plan) == (workspace, plan)
    requires (workspace, plan) in Apply(cat, w, s, e).runs
    requires e.id !in Apply(cat, w, s, e).runs[(workspace, plan)].done ||
      UnchangedIn(cat, s0, ds, workspace, plan, e.id)
    ensures OutcomeOf(cat, w, s, e).store == s.store
  {
    if OutcomeOf(cat, w, s, e).result.Ok? { DoneAfterSuccess(cat, w, s, e); }
    OwnStageKeepsStore(cat, w, s0, ds, s, workspace, plan, e);
  }

  lemma {:induction false} DoneAfterSuccess(cat: Catalog, w: World, s: State, e: Event)
    requires Ends(cat, s, e) && OutcomeOf(cat, w, s, e).result.Ok?
    ensures var s' := Apply(cat, w, s, e);
      (e.workspace, e.plan) in s'.runs && e.id in s'.runs[(e.workspace, e.plan)].done
  {
  }

  lemma {:induction false} LaterRunRenews(
    cat: Catalog, w: World, s0: State, ds: DatasetState, workspace: string, plan: string, p: StagePlan,
    events: seq<Event>)
    requires CompleteRun(cat, w, s0, workspace, plan) && Coherent(w, ds)
    requires CanBegin(cat, w, s0.(ds := ds), workspace, plan, p)
    requires Undisturbed(events, workspace, plan) && CoherentRevisions(w, events)
    ensures var s := ReplayFrom(cat, w, BeginAgain(cat, w, s0, ds, workspace, plan, p), events);
      Renewing(cat, w, s0, ds, s, workspace, plan)
    decreases |events|
  {
    BeginAgainRenews(cat, w, s0, ds, workspace, plan, p);
    if events != [] {
      var init, e := events[..|events| - 1], events[|events| - 1];
      assert e in events && forall x | x in init :: x in events;
      LaterRunRenews(cat, w, s0, ds, workspace, plan, p, init);
      var s := ReplayFrom(cat, w, BeginAgain(cat, w, s0, ds, workspace, plan, p), init);
      StepKeepsRenewing(cat, w, s0, ds, s, e, workspace, plan);
    }
  }

  /**
   * After a complete run the datasets are revised and the plan runs again, among any other runs
   * and revisions. The first execution of a stage is served from the cache exactly when nothing
   * rules out caching it and every source it transitively reads is at the same revision; and then
   * with the artifact of the first run.
   */
  lemma {:induction false} NewRevisionMissesExactlyItsDependents(
    cat: Catalog, w: World, s0: State, ds: DatasetState, workspace: string, plan: string, p: StagePlan,
    events: seq<Event>, id: StageId, fault: bool)
    requires CompleteRun(cat, w, s0, workspace, plan) && Coherent(w, ds)
    requires CanBegin(cat, w, s0.(ds := ds), workspace, plan, p)
    requires Undisturbed(events, workspace, plan) && CoherentRevisions(w, events)
    requires var s := ReplayFrom(cat, w, BeginAgain(cat, w, s0, ds, workspace, plan, p), events);
      CanRun(cat, s, workspace, plan, id) && id !in s.runs[(workspace, plan)].done
    ensures var s := ReplayFrom(cat, w, BeginAgain(cat, w, s0, ds, workspace, plan, p), events);
      var o := StageOutcome(cat, w, s, workspace, plan, id, fault);
      && (o.cached <==> Unchanged(cat.plans[plan], s0.runs[(workspace, plan)].ds.bindings, ds.bindings, id))
      && (o.cached ==> ReturnsOld(s0, s, o, ManifestPath(workspace, plan, id)))
  {
    LaterRunRenews(cat, w, s0, ds, workspace, plan, p, events);
    var s := ReplayFrom(cat, w, BeginAgain(cat, w, s0, ds, workspace, plan, p), events);
    RenewedStage(cat, w, s0, ds, s, workspace, plan, id, fault);
  }

  /**
   * In particular, when only the freshness key of one table is new: the first execution of a stage
   * is served from the cache exactly when nothing rules out caching it and it does not read that
   * table, directly or through other stages.
   */
  lemma {:induction false} NewKeyMissesItsReaders(
    cat: Catalog, w: World, s0: State, ds: DatasetState, workspace: string, plan: string, p: StagePlan,
    events: seq<Event>, id: StageId, fault: bool, k: string, key: string)
    requires CompleteRun(cat, w, s0, workspace, plan) && Coherent(w, ds)
    requires var before := s0.runs[(workspace, plan)].ds.bindings;
      && k in before && RevisionBacked(before[k]) && !Blank(key) && Strip(key) != RevisionKey(before[k])
      && ds.bindings == WithKey(before, k, key)
    requires CanBegin(cat, w, s0.(ds := ds), workspace, plan, p)
    requires Undisturbed(events, workspace, plan) && CoherentRevisions(w, events)
    requires var s := ReplayFrom(cat, w, BeginAgain(cat, w, s0, ds, workspace, plan, p), events);
      CanRun(cat, s, workspace, plan, id) && id !in s.runs[(workspace, plan)].done
    ensures var s := ReplayFrom(cat, w, BeginAgain(cat, w, s0, ds, workspace, plan, p), events);
      StageOutcome(cat, w, s, workspace, plan, id, fault).cached <==>
        && !Tainted(cat.plans[plan], s0.runs[(workspace, plan)].ds.bindings, id)
        && !Reads(cat.plans[plan], id, k)
  {
    NewRevisionMissesExactlyItsDependents(cat, w, s0, ds, workspace, plan, p, events, id, fault);
    assert RunOk(w, cat.plans[plan], s0.store, workspace, plan, s0.runs[(workspace, plan)]);
    NewKeyChangesItsReaders(cat.plans[plan], s0.runs[(workspace, plan)].ds.bindings, k, key, id);
  }

  /**
   * Re-running an untainted plan on the same bindings executes no source and no local SQL: whatever
   * ran in between, every execution of a stage is a cache hit on the artifact of the first run,
   * even when its source would fail.
   */
  lemma {:induction false} RerunIsServedFromCache(
    cat: Catalog, w: World, s0: State, ds: DatasetState, workspace: string, plan: string, p: StagePlan,
    events: seq<Event>, id: StageId, fault: bool)
    requires CompleteRun(cat, w, s0, workspace, plan) && Coherent(w, ds)
    requires ds.bindings == s0.runs[(workspace, plan)].ds.bindings && !Tainted(cat.plans[plan], ds.bindings, id)
    requires CanBegin(cat, w, s0.(ds := ds), workspace, plan, p)
    requires Undisturbed(events, workspace, plan) && CoherentRevisions(w, events)
    requires var s := ReplayFrom(cat, w, BeginAgain(cat, w, s0, ds, workspace, plan, p), events);
      CanRun(cat, s, workspace, plan, id)
    ensures var s := ReplayFrom(cat, w, BeginAgain(cat, w, s0, ds, workspace, plan, p), events);
      var o := StageOutcome(cat, w, s, workspace, plan, id, fault);
      o.cached && ReturnsOld(s0, s, o, ManifestPath(workspace, plan, id))
  {
    LaterRunRenews(cat, w, s0, ds, workspace, plan, p, events);
    var s := ReplayFrom(cat, w, BeginAgain(cat, w, s0, ds, workspace, plan, p), events);
    SameBindingsUnchanged(cat, w, s0, ds, workspace, plan, id);
    RenewedStage(cat, w, s0, ds, s, workspace, plan, id, fault);
  }

  lemma {:induction false} SameBindingsUnchanged(
    cat: Catalog, w: World, s0: State, ds: DatasetState, workspace: string, plan: string, id: StageId)
    requires CompleteRun(cat, w, s0, workspace, plan) && plan in cat.plans
    requires ds.bindings == s0.runs[(workspace, plan)].ds.bindings && !Tainted(cat.plans[plan], ds.bindings, id)
    ensures UnchangedIn(cat, s0, ds, workspace, plan, id)
  {
    assert RunOk(w, cat.plans[plan], s0.store, workspace, plan, s0.runs[(workspace, plan)]);
    SameBindingsSameSources(cat.plans[plan], ds.bindings, id);
  }
}
