/** Whole histories: runs of any plans, failures, dataset revisions and lost artifacts, in any order. */
module CacheHistory {
  import opened Prelude
  import opened Dag
  import opened Sql
  import opened Plans
  import opened CacheContext
  import opened Store
  import opened Execution
  import opened CacheMeaning

  // The workspaces and plans of a history. A plan id fixes its stages up to the text of its scans.
  datatype Catalog = Catalog(workspaces: set<string>, plans: map<string, StagePlan>)

  // A run has its own plan, alike to the catalog's, and sees the datasets as they were when it
  // began. `fetching` are the stages whose sources have been asked, after a lookup that found
  // nothing, with the descriptors they got then; `intact` says that no artifact was lost since.
  datatype Run = Run(
    plan: StagePlan, ds: DatasetState, done: set<StageId>, fetching: map<StageId, Descriptor>, intact: bool)

  // At most one run of a plan at a time in a workspace; runs of different plans may overlap.
  datatype State = State(store: Contents, ds: DatasetState, runs: map<(string, string), Run>)

  // RunStage executes a stage with nothing happening in between. Fetch and Land are the two halves of
  // the execution of a remote stage: up to the call of the source, and from its answer on.
  datatype Event =
    | Revise(ds: DatasetState)
    | Begin(workspace: string, plan: string, stages: StagePlan)
    | RunStage(workspace: string, plan: string, id: StageId, fault: bool)
    | Fetch(workspace: string, plan: string, id: StageId)
    | Land(workspace: string, plan: string, id: StageId, fault: bool)
    | Lose(key: Key)

  predicate InCatalog(cat: Catalog, workspace: string, plan: string, id: StageId) {
    workspace in cat.workspaces && plan in cat.plans && id in cat.plans[plan].stages
  }

  /** File names keep apart the manifests of the catalog. */
  ghost predicate SeparatePaths(cat: Catalog) {
    forall ws, pl, id, ws', pl', id' | InCatalog(cat, ws, pl, id) && InCatalog(cat, ws', pl', id') ::
      ManifestPath(ws, pl, id) == ManifestPath(ws', pl', id') ==> ws == ws' && pl == pl' && id == id'
  }

  /** Workspaces, plan ids and stage ids are their own file names. */
  ghost predicate PlainCatalog(cat: Catalog) {
    forall ws, pl, id | InCatalog(cat, ws, pl, id) :: PlainName(ws) && PlainName(pl) && PlainName(id)
  }

  lemma {:induction false} PlainNamesAreSeparate(cat: Catalog)
    requires PlainCatalog(cat)
    ensures SeparatePaths(cat)
  {
    forall ws, pl, id | InCatalog(cat, ws, pl, id) ensures ManifestPath(ws, pl, id) == Path(ws, pl, id) {
      PlainNamesAreKept(ws);
      PlainNamesAreKept(pl);
      PlainNamesAreKept(id);
    }
  }

  ghost predicate GoodCatalog(cat: Catalog) {
    SeparatePaths(cat) && forall pl | pl in cat.plans :: Built(cat.plans[pl])
  }

  ghost predicate CanBegin(cat: Catalog, w: World, s: State, workspace: string, plan: string, p: StagePlan) {
    && workspace in cat.workspaces && plan in cat.plans
    && Alike(w, p, cat.plans[plan]) && PlanBound(cat.plans[plan], s.ds.bindings)
  }

  /** The scheduler executes a stage once its dependencies are done in the same run. */
  predicate CanRun(cat: Catalog, s: State, workspace: string, plan: string, id: StageId) {
    && InCatalog(cat, workspace, plan, id) && (workspace, plan) in s.runs
    && id in s.runs[(workspace, plan)].plan.stages
    && forall d | d in cat.plans[plan].stages[id].deps :: d in s.runs[(workspace, plan)].done
  }

  function StageOutcome(
    cat: Catalog, w: World, s: State, workspace: string, plan: string, id: StageId, fault: bool): Outcome
    requires CanRun(cat, s, workspace, plan, id)
  {
    var r := s.runs[(workspace, plan)];
    Execute(w, r.plan, r.ds, s.store, workspace, plan, r.plan.stages[id], fault)
  }

  /** The lookup of a remote stage finds nothing, so its source is asked. */
  predicate CanFetch(cat: Catalog, w: World, s: State, workspace: string, plan: string, id: StageId) {
    && CanRun(cat, s, workspace, plan, id)
    && var r := s.runs[(workspace, plan)];
       && id !in r.fetching && !r.plan.stages[id].kind.LocalCompute?
       && Lookup(w, r.plan, r.ds, s.store, workspace, plan, r.plan.stages[id]).None?
  }

  predicate CanLand(cat: Catalog, s: State, workspace: string, plan: string, id: StageId) {
    CanRun(cat, s, workspace, plan, id) && id in s.runs[(workspace, plan)].fetching
  }

  /** The source has answered, or failed: the output is written under the descriptor of the lookup. */
  function LandOutcome(
    cat: Catalog, w: World, s: State, workspace: string, plan: string, id: StageId, fault: bool): Outcome
    requires CanLand(cat, s, workspace, plan, id)
  {
    var r := s.runs[(workspace, plan)];
    Finish(w, r.plan, r.ds, s.store, workspace, plan, r.plan.stages[id], r.fetching[id], fault)
  }

  function Fetching(w: World, s: State, workspace: string, plan: string, id: StageId): State
    requires (workspace, plan) in s.runs && id in s.runs[(workspace, plan)].plan.stages
  {
    var r := s.runs[(workspace, plan)];
    var d := StageDescriptor(w, r.plan, r.ds, s.store, workspace, plan, r.plan.stages[id]);
    s.(runs := s.runs[(workspace, plan) := r.(fetching := r.fetching[id := d])])
  }

  /** An execution has ended with this outcome. */
  function Concluded(s: State, workspace: string, plan: string, id: StageId, o: Outcome): State
    requires (workspace, plan) in s.runs
  {
    var r := s.runs[(workspace, plan)];
    var done := if o.result.Ok? then r.done + {id} else r.done;
    s.(store := o.store, runs := s.runs[(workspace, plan) := r.(done := done, fetching := r.fetching - {id})])
  }

  ghost function Apply(cat: Catalog, w: World, s: State, e: Event): State {
    match e
    case Revise(ds) => s.(ds := ds)
    case Begin(ws, pl, p) =>
      if CanBegin(cat, w, s, ws, pl, p) then s.(runs := s.runs[(ws, pl) := Run(p, s.ds, {}, map[], true)]) else s
    case RunStage(ws, pl, id, fault) =>
      if CanRun(cat, s, ws, pl, id) then Concluded(s, ws, pl, id, StageOutcome(cat, w, s, ws, pl, id, fault)) else s
    case Fetch(ws, pl, id) =>
      if CanFetch(cat, w, s, ws, pl, id) then Fetching(w, s, ws, pl, id) else s
    case Land(ws, pl, id, fault) =>
      if CanLand(cat, s, ws, pl, id) then Concluded(s, ws, pl, id, LandOutcome(cat, w, s, ws, pl, id, fault)) else s
    case Lose(key) =>
      State(Contents(s.store.manifests, s.store.artifacts - {key}), s.ds,
            map k | k in s.runs :: s.runs[k].(intact := false))
  }

  const EMPTY_STORE: Contents := Contents(map[], map[])

  /** The state after a history that starts at `s`. */
  ghost function ReplayFrom(cat: Catalog, w: World, s: State, events: seq<Event>): State
    decreases |events|
  {
    if events == [] then s
    else Apply(cat, w, ReplayFrom(cat, w, s, events[..|events| - 1]), events[|events| - 1])
  }

  ghost function Replay(cat: Catalog, w: World, ds: DatasetState, events: seq<Event>): State {
    ReplayFrom(cat, w, State(EMPTY_STORE, ds, map[]), events)
  }

  // ----- the descriptor a stage gets when nothing is lost -----

  ghost function Ideal(w: World, p: StagePlan, bindings: map<string, Binding>, id: StageId): Descriptor
    requires Resolvable(Dependencies(p), id)
    decreases Rank(Dependencies(p), id), 1
  {
    DependencyRank(Dependencies(p), id, id);
    Describe(w.keyHash, p.tables, bindings, p.stages[id], IdealCaches(w, p, bindings, id))
  }

  ghost function IdealCaches(w: World, p: StagePlan, bindings: map<string, Binding>, id: StageId): Caches
    requires Resolvable(Dependencies(p), id)
    decreases Rank(Dependencies(p), id), 0
  {
    DependenciesResolvable(p, id);
    map d | d in p.stages[id].deps :: Some(Ideal(w, p, bindings, d))
  }

  // ----- invariant -----

  ghost predicate StoreOk(cat: Catalog, w: World, c: Contents) {
    && ContentAddressed(w.contentHash, c)
    && forall ws, pl, id | InCatalog(cat, ws, pl, id) :: ManifestOk(w, cat.plans[pl], c, ws, pl, id)
  }

  /** Nothing lost: the manifest is there, with the ideal descriptor. */
  ghost predicate IntactOk(
    w: World, p: StagePlan, ds: DatasetState, c: Contents, workspace: string, plan: string, id: StageId)
  {
    && Resolvable(Dependencies(p), id)
    && GetManifest(c, ManifestPath(workspace, plan, id)).Some?
    && GetManifest(c, ManifestPath(workspace, plan, id)).value.cache == Some(Ideal(w, p, ds.bindings, id))
  }

  /** The descriptor a fetched stage got is the one it would get now: it does not depend on the store. */
  ghost predicate FetchesOk(w: World, p: StagePlan, r: Run) {
    forall id | id in r.fetching ::
      && id in p.stages && !p.stages[id].kind.LocalCompute?
      && r.fetching[id] == Describe(w.keyHash, p.tables, r.ds.bindings, p.stages[id], map[])
  }

  ghost predicate RunOk(w: World, p: StagePlan, c: Contents, workspace: string, plan: string, r: Run) {
    && Alike(w, r.plan, p) && PlanBound(p, r.ds.bindings) && Coherent(w, r.ds)
    && r.done <= p.stages.Keys
    && (forall id | id in r.done :: forall d | d in p.stages[id].deps :: d in r.done)
    && (forall id | id in r.done :: DoneOk(w, p, r.ds, c, workspace, plan, id))
    && (r.intact ==> forall id | id in r.done :: IntactOk(w, p, r.ds, c, workspace, plan, id))
    && FetchesOk(w, p, r)
  }

  ghost predicate Inv(cat: Catalog, w: World, s: State) {
    && GoodWorld(w) && GoodCatalog(cat) && Coherent(w, s.ds) && StoreOk(cat, w, s.store)
    && forall ws, pl | (ws, pl) in s.runs ::
         ws in cat.workspaces && pl in cat.plans && RunOk(w, cat.plans[pl], s.store, ws, pl, s.runs[(ws, pl)])
  }

  // ----- frames -----

  ghost predicate SameManifest(c: Contents, c': Contents, path: Path) {
    (path in c.manifests <==> path in c'.manifests) && (path in c.manifests ==> c.manifests[path] == c'.manifests[path])
  }

  ghost predicate KeepsArtifacts(c: Contents, c': Contents) {
    forall k | k in c.artifacts :: k in c'.artifacts && c'.artifacts[k] == c.artifacts[k]
  }

  lemma {:induction false} FrameStage(
    w: World, p: StagePlan, ds: DatasetState, c: Contents, c': Contents, workspace: string, plan: string, id: StageId)
    requires SameManifest(c, c', ManifestPath(workspace, plan, id))
    ensures ManifestOk(w, p, c, workspace, plan, id) ==> ManifestOk(w, p, c', workspace, plan, id)
    ensures DoneOk(w, p, ds, c, workspace, plan, id) ==> DoneOk(w, p, ds, c', workspace, plan, id)
    ensures KeepsArtifacts(c, c') && IntactOk(w, p, ds, c, workspace, plan, id) ==>
      IntactOk(w, p, ds, c', workspace, plan, id)
  {
  }

  lemma {:induction false} FrameRun(
    w: World, p: StagePlan, c: Contents, c': Contents, workspace: string, plan: string, r: Run)
    requires RunOk(w, p, c, workspace, plan, r) && (r.intact ==> KeepsArtifacts(c, c'))
    requires forall id | id in r.done :: SameManifest(c, c', ManifestPath(workspace, plan, id))
    ensures RunOk(w, p, c', workspace, plan, r)
  {
  }

  // ----- one stage -----

  lemma {:induction false} BoundHasContents(w: World, p: StagePlan, ds: DatasetState)
    requires PlanBound(p, ds.bindings) && Coherent(w, ds)
    ensures HasContents(p, ds)
  {
  }

  /** A run's own plan executes like the catalog's. */
  lemma {:induction false} OutcomeIsTheCatalogs(
    cat: Catalog, w: World, s: State, workspace: string, plan: string, id: StageId, fault: bool)
    requires Inv(cat, w, s) && CanRun(cat, s, workspace, plan, id)
    ensures StageOutcome(cat, w, s, workspace, plan, id, fault) ==
            Execute(
              w, cat.plans[plan], s.runs[(workspace, plan)].ds, s.store, workspace, plan, cat.plans[plan].stages[id],
              fault)
  {
    var p, r := cat.plans[plan], s.runs[(workspace, plan)];
    assert RunOk(w, p, s.store, workspace, plan, r);
    BoundHasContents(w, p, r.ds);
    AlikeExecution(w, r.plan, p, r.ds, s.store, workspace, plan, id, fault);
  }

  lemma {:induction false} EnabledIsRunnable(
    cat: Catalog, w: World, s: State, workspace: string, plan: string, id: StageId)
    requires Inv(cat, w, s) && CanRun(cat, s, workspace, plan, id)
    ensures Runnable(w, cat.plans[plan], s.runs[(workspace, plan)].ds, s.store, workspace, plan, id)
  {
    var p, r := cat.plans[plan], s.runs[(workspace, plan)];
    assert RunOk(w, p, s.store, workspace, plan, r);
    forall d | d in p.stages[id].deps
      ensures ManifestOk(w, p, s.store, workspace, plan, d) && DoneOk(w, p, r.ds, s.store, workspace, plan, d)
    {
      assert d in r.done && InCatalog(cat, workspace, plan, d);
    }
    forall d | d in Dependencies(p)[id] ensures Resolvable(Dependencies(p), d) {
      assert DoneOk(w, p, r.ds, s.store, workspace, plan, d);
    }
    ResolvableIfDependenciesAre(Dependencies(p), id);
  }

  lemma {:induction false} IntactCachesAreIdeal(
    w: World, p: StagePlan, ds: DatasetState, c: Contents, workspace: string, plan: string, id: StageId)
    requires Resolvable(Dependencies(p), id)
    requires forall d | d in p.stages[id].deps :: IntactOk(w, p, ds, c, workspace, plan, d)
    ensures DependencyCaches(c, workspace, plan, p.stages[id].deps) == IdealCaches(w, p, ds.bindings, id)
  {
  }

  lemma {:induction false} IntactDescriptorIsIdeal(
    w: World, p: StagePlan, ds: DatasetState, c: Contents, workspace: string, plan: string, id: StageId)
    requires Resolvable(Dependencies(p), id)
    requires forall d | d in p.stages[id].deps :: IntactOk(w, p, ds, c, workspace, plan, d)
    ensures StageDescriptor(w, p, ds, c, workspace, plan, p.stages[id]) == Ideal(w, p, ds.bindings, id)
  {
    IntactCachesAreIdeal(w, p, ds, c, workspace, plan, id);
  }

  /** An execution keeps all artifacts and all other manifests; one that fails changes nothing. */
  ghost predicate Frame(c: Contents, o: Outcome, path: Path) {
    && KeepsArtifacts(c, o.store)
    && (forall other | other != path :: SameManifest(c, o.store, other))
    && (o.result.Err? ==> o.store == c)
  }

  lemma {:induction false} FinishFrame(
    w: World, p: StagePlan, ds: DatasetState, c: Contents, workspace: string, plan: string, s: StageDef,
    d: Descriptor, fault: bool)
    ensures Frame(c, Finish(w, p, ds, c, workspace, plan, s, d, fault), ManifestPath(workspace, plan, s.id))
  {
  }

  lemma {:induction false} ExecutionFrame(
    w: World, p: StagePlan, ds: DatasetState, c: Contents, workspace: string, plan: string, s: StageDef, fault: bool)
    ensures Frame(c, Execute(w, p, ds, c, workspace, plan, s, fault), ManifestPath(workspace, plan, s.id))
  {
    FinishFrame(w, p, ds, c, workspace, plan, s, StageDescriptor(w, p, ds, c, workspace, plan, s), fault);
  }

  /** All that matters about an execution, in one step or in two. */
  ghost predicate GoodOutcome(
    cat: Catalog, w: World, s: State, workspace: string, plan: string, id: StageId, o: Outcome)
    requires CanRun(cat, s, workspace, plan, id)
  {
    && Resolvable(Dependencies(cat.plans[plan]), id)
    && Frame(s.store, o, ManifestPath(workspace, plan, id))
    && SoundOutcome(w, cat.plans[plan], s.runs[(workspace, plan)].ds, s.store, workspace, plan, id, o)
  }

  lemma {:induction false} StageOutcomeIsGood(
    cat: Catalog, w: World, s: State, workspace: string, plan: string, id: StageId, fault: bool)
    requires Inv(cat, w, s) && CanRun(cat, s, workspace, plan, id)
    ensures GoodOutcome(cat, w, s, workspace, plan, id, StageOutcome(cat, w, s, workspace, plan, id, fault))
  {
    var p, r := cat.plans[plan], s.runs[(workspace, plan)];
    OutcomeIsTheCatalogs(cat, w, s, workspace, plan, id, fault);
    EnabledIsRunnable(cat, w, s, workspace, plan, id);
    ExecutionIsSound(w, p, r.ds, s.store, workspace, plan, id, fault);
    ExecutionFrame(w, p, r.ds, s.store, workspace, plan, p.stages[id], fault);
  }

  /** A landing finishes the catalog's stage, under the descriptor it would get now. */
  lemma {:induction false} LandingIsTheCatalogs(
    cat: Catalog, w: World, s: State, workspace: string, plan: string, id: StageId, fault: bool)
    requires Inv(cat, w, s) && CanLand(cat, s, workspace, plan, id)
    ensures var p, r := cat.plans[plan], s.runs[(workspace, plan)];
      LandOutcome(cat, w, s, workspace, plan, id, fault) ==
      Finish(
        w, p, r.ds, s.store, workspace, plan, p.stages[id],
        StageDescriptor(w, p, r.ds, s.store, workspace, plan, p.stages[id]), fault)
  {
    var p, r := cat.plans[plan], s.runs[(workspace, plan)];
    assert RunOk(w, p, s.store, workspace, plan, r);
    BoundHasContents(w, p, r.ds);
    AlikeExecution(w, r.plan, p, r.ds, s.store, workspace, plan, id, fault);
  }

  lemma {:induction false} LandOutcomeIsGood(
    cat: Catalog, w: World, s: State, workspace: string, plan: string, id: StageId, fault: bool)
    requires Inv(cat, w, s) && CanLand(cat, s, workspace, plan, id)
    ensures GoodOutcome(cat, w, s, workspace, plan, id, LandOutcome(cat, w, s, workspace, plan, id, fault))
  {
    var p, r := cat.plans[plan], s.runs[(workspace, plan)];
    LandingIsTheCatalogs(cat, w, s, workspace, plan, id, fault);
    EnabledIsRunnable(cat, w, s, workspace, plan, id);
    FinishIsSound(w, p, r.ds, s.store, workspace, plan, id, fault);
    var d := StageDescriptor(w, p, r.ds, s.store, workspace, plan, p.stages[id]);
    FinishFrame(w, p, r.ds, s.store, workspace, plan, p.stages[id], d, fault);
  }

  /** The event ends an execution, in this state. */
  predicate Ends(cat: Catalog, s: State, e: Event) {
    || (e.RunStage? && CanRun(cat, s, e.workspace, e.plan, e.id))
    || (e.Land? && CanLand(cat, s, e.workspace, e.plan, e.id))
  }

  function OutcomeOf(cat: Catalog, w: World, s: State, e: Event): Outcome
    requires Ends(cat, s, e)
  {
    if e.RunStage? then StageOutcome(cat, w, s, e.workspace, e.plan, e.id, e.fault)
    else LandOutcome(cat, w, s, e.workspace, e.plan, e.id, e.fault)
  }

  lemma {:induction false} OutcomeIsGood(cat: Catalog, w: World, s: State, e: Event)
    requires Inv(cat, w, s) && Ends(cat, s, e)
    ensures GoodOutcome(cat, w, s, e.workspace, e.plan, e.id, OutcomeOf(cat, w, s, e))
  {
    if e.RunStage? {
      StageOutcomeIsGood(cat, w, s, e.workspace, e.plan, e.id, e.fault);
    } else {
      LandOutcomeIsGood(cat, w, s, e.workspace, e.plan, e.id, e.fault);
    }
  }

  lemma {:induction false} OutcomeKeepsStore(
    cat: Catalog, w: World, s: State, workspace: string, plan: string, id: StageId, o: Outcome)
    requires Inv(cat, w, s) && CanRun(cat, s, workspace, plan, id) && GoodOutcome(cat, w, s, workspace, plan, id, o)
    ensures StoreOk(cat, w, o.store)
  {
    if o.result.Ok? {
      forall ws, pl, id' | InCatalog(cat, ws, pl, id') ensures ManifestOk(w, cat.plans[pl], o.store, ws, pl, id') {
        if (ws, pl, id') != (workspace, plan, id) {
          assert ManifestPath(ws, pl, id') != ManifestPath(workspace, plan, id);
          FrameStage(w, cat.plans[pl], s.ds, s.store, o.store, ws, pl, id');
        }
      }
    }
  }

  lemma {:induction false} OutcomeKeepsOtherRuns(
    cat: Catalog, w: World, s: State, workspace: string, plan: string, id: StageId, o: Outcome, ws: string, pl: string)
    requires Inv(cat, w, s) && CanRun(cat, s, workspace, plan, id) && GoodOutcome(cat, w, s, workspace, plan, id, o)
    requires (ws, pl) in s.runs && (ws, pl) != (workspace, plan)
    ensures RunOk(w, cat.plans[pl], o.store, ws, pl, s.runs[(ws, pl)])
  {
    forall d | d in s.runs[(ws, pl)].done ensures SameManifest(s.store, o.store, ManifestPath(ws, pl, d)) {
      assert InCatalog(cat, ws, pl, d) && InCatalog(cat, workspace, plan, id);
    }
    FrameRun(w, cat.plans[pl], s.store, o.store, ws, pl, s.runs[(ws, pl)]);
  }

  /** The stage just executed is done, and intact when its run is. */
  lemma {:induction false} ExecutedStageIsDone(
    cat: Catalog, w: World, s: State, workspace: string, plan: string, id: StageId, o: Outcome)
    requires Inv(cat, w, s) && CanRun(cat, s, workspace, plan, id) && GoodOutcome(cat, w, s, workspace, plan, id, o)
    requires o.result.Ok?
    ensures var r := s.runs[(workspace, plan)];
      && DoneOk(w, cat.plans[plan], r.ds, o.store, workspace, plan, id)
      && (r.intact ==> IntactOk(w, cat.plans[plan], r.ds, o.store, workspace, plan, id))
  {
    var p, r := cat.plans[plan], s.runs[(workspace, plan)];
    assert RunOk(w, p, s.store, workspace, plan, r);
    if r.intact { IntactDescriptorIsIdeal(w, p, r.ds, s.store, workspace, plan, id); }
  }

  lemma {:induction false} OtherDoneStageStays(
    cat: Catalog, w: World, s: State, workspace: string, plan: string, id: StageId, o: Outcome, d: StageId)
    requires Inv(cat, w, s) && CanRun(cat, s, workspace, plan, id) && GoodOutcome(cat, w, s, workspace, plan, id, o)
    requires d != id && d in s.runs[(workspace, plan)].done
    ensures var r := s.runs[(workspace, plan)];
      && DoneOk(w, cat.plans[plan], r.ds, o.store, workspace, plan, d)
      && (r.intact ==> IntactOk(w, cat.plans[plan], r.ds, o.store, workspace, plan, d))
  {
    var p, r := cat.plans[plan], s.runs[(workspace, plan)];
    assert RunOk(w, p, s.store, workspace, plan, r);
    assert InCatalog(cat, workspace, plan, d) && InCatalog(cat, workspace, plan, id);
    FrameStage(w, p, r.ds, s.store, o.store, workspace, plan, d);
  }

  lemma {:induction false} OneMoreDone(
    w: World, p: StagePlan, c: Contents, c': Contents, workspace: string, plan: string, r: Run, id: StageId)
    requires RunOk(w, p, c, workspace, plan, r) && id in p.stages
    requires forall d | d in p.stages[id].deps :: d in r.done
    requires forall d | d in r.done + {id} :: DoneOk(w, p, r.ds, c', workspace, plan, d)
    requires r.intact ==> forall d | d in r.done + {id} :: IntactOk(w, p, r.ds, c', workspace, plan, d)
    ensures RunOk(w, p, c', workspace, plan, r.(done := r.done + {id}))
  {
  }

  lemma {:induction false} OutcomeKeepsItsRun(
    cat: Catalog, w: World, s: State, workspace: string, plan: string, id: StageId, o: Outcome)
    requires Inv(cat, w, s) && CanRun(cat, s, workspace, plan, id) && GoodOutcome(cat, w, s, workspace, plan, id, o)
    ensures RunOk(
      w, cat.plans[plan], o.store, workspace, plan, Concluded(s, workspace, plan, id, o).runs[(workspace, plan)])
  {
    var p, r := cat.plans[plan], s.runs[(workspace, plan)];
    assert RunOk(w, p, s.store, workspace, plan, r);
    if o.result.Ok? {
      ExecutedStageIsDone(cat, w, s, workspace, plan, id, o);
      forall d | d in r.done + {id}
        ensures DoneOk(w, p, r.ds, o.store, workspace, plan, d)
        ensures r.intact ==> IntactOk(w, p, r.ds, o.store, workspace, plan, d)
      {
        if d != id { OtherDoneStageStays(cat, w, s, workspace, plan, id, o, d); }
      }
      OneMoreDone(w, p, s.store, o.store, workspace, plan, r, id);
      FewerFetches(w, p, o.store, workspace, plan, r.(done := r.done + {id}), id);
    } else {
      FewerFetches(w, p, o.store, workspace, plan, r, id);
    }
  }

  lemma {:induction false} FewerFetches(
    w: World, p: StagePlan, c: Contents, workspace: string, plan: string, r: Run, id: StageId)
    requires RunOk(w, p, c, workspace, plan, r)
    ensures RunOk(w, p, c, workspace, plan, r.(fetching := r.fetching - {id}))
  {
  }

  lemma {:induction false} ConcludedKeepsInv(
    cat: Catalog, w: World, s: State, workspace: string, plan: string, id: StageId, o: Outcome)
    requires Inv(cat, w, s) && CanRun(cat, s, workspace, plan, id) && GoodOutcome(cat, w, s, workspace, plan, id, o)
    ensures Inv(cat, w, Concluded(s, workspace, plan, id, o))
  {
    var s' := Concluded(s, workspace, plan, id, o);
    OutcomeKeepsStore(cat, w, s, workspace, plan, id, o);
    OutcomeKeepsItsRun(cat, w, s, workspace, plan, id, o);
    forall ws, pl | (ws, pl) in s'.runs
      ensures ws in cat.workspaces && pl in cat.plans && RunOk(w, cat.plans[pl], s'.store, ws, pl, s'.runs[(ws, pl)])
    {
      if (ws, pl) != (workspace, plan) { OutcomeKeepsOtherRuns(cat, w, s, workspace, plan, id, o, ws, pl); }
    }
  }

  lemma {:induction false} FetchLeaves(cat: Catalog, w: World, s: State, workspace: string, plan: string, id: StageId)
    requires CanFetch(cat, w, s, workspace, plan, id)
    ensures var s' := Apply(cat, w, s, Fetch(workspace, plan, id));
      && s' == Fetching(w, s, workspace, plan, id) && s'.store == s.store && (workspace, plan) in s'.runs
      && s'.runs[(workspace, plan)] ==
           s.runs[(workspace, plan)].(fetching := s'.runs[(workspace, plan)].fetching)
  {
  }

  lemma {:induction false} FetchKeepsInv(cat: Catalog, w: World, s: State, workspace: string, plan: string, id: StageId)
    requires Inv(cat, w, s) && CanFetch(cat, w, s, workspace, plan, id)
    ensures Inv(cat, w, Fetching(w, s, workspace, plan, id))
  {
    var p, r, s' := cat.plans[plan], s.runs[(workspace, plan)], Fetching(w, s, workspace, plan, id);
    assert RunOk(w, p, s.store, workspace, plan, r);
    AlikeDescriptor(w, r.plan, p, r.ds, s.store, workspace, plan, id);
    assert RunOk(w, p, s.store, workspace, plan, s'.runs[(workspace, plan)]);
    forall ws, pl | (ws, pl) in s'.runs
      ensures ws in cat.workspaces && pl in cat.plans && RunOk(w, cat.plans[pl], s.store, ws, pl, s'.runs[(ws, pl)])
    {
    }
  }

  lemma {:induction false} LoseKeepsInv(cat: Catalog, w: World, s: State, key: Key)
    requires Inv(cat, w, s)
    ensures Inv(cat, w, Apply(cat, w, s, Lose(key)))
  {
    var s' := Apply(cat, w, s, Lose(key));
    forall ws, pl, id | InCatalog(cat, ws, pl, id) ensures ManifestOk(w, cat.plans[pl], s'.store, ws, pl, id) {
      FrameStage(w, cat.plans[pl], s.ds, s.store, s'.store, ws, pl, id);
    }
    forall ws, pl | (ws, pl) in s'.runs
      ensures ws in cat.workspaces && pl in cat.plans && RunOk(w, cat.plans[pl], s'.store, ws, pl, s'.runs[(ws, pl)])
    {
      FrameRun(w, cat.plans[pl], s.store, s'.store, ws, pl, s.runs[(ws, pl)].(intact := false));
    }
  }

  lemma {:induction false} EndKeepsArtifacts(cat: Catalog, w: World, s: State, e: Event)
    requires Inv(cat, w, s) && Ends(cat, s, e)
    ensures KeepsArtifacts(s.store, OutcomeOf(cat, w, s, e).store)
    ensures Apply(cat, w, s, e) == Concluded(s, e.workspace, e.plan, e.id, OutcomeOf(cat, w, s, e))
  {
    OutcomeIsGood(cat, w, s, e);
  }

  lemma {:induction false} EndKeepsInv(cat: Catalog, w: World, s: State, e: Event)
    requires Inv(cat, w, s) && Ends(cat, s, e)
    ensures Inv(cat, w, Apply(cat, w, s, e))
  {
    OutcomeIsGood(cat, w, s, e);
    ConcludedKeepsInv(cat, w, s, e.workspace, e.plan, e.id, OutcomeOf(cat, w, s, e));
  }

  lemma {:induction false} StepKeepsInv(cat: Catalog, w: World, s: State, e: Event)
    requires Inv(cat, w, s) && (e.Revise? ==> Coherent(w, e.ds))
    ensures Inv(cat, w, Apply(cat, w, s, e))
  {
    match e
    case Revise(_) =>
    case Begin(_, _, _) =>
    case RunStage(_, _, _, _) => if Ends(cat, s, e) { EndKeepsInv(cat, w, s, e); }
    case Fetch(ws, pl, id) => if CanFetch(cat, w, s, ws, pl, id) { FetchKeepsInv(cat, w, s, ws, pl, id); }
    case Land(_, _, _, _) => if Ends(cat, s, e) { EndKeepsInv(cat, w, s, e); }
    case Lose(key) => LoseKeepsInv(cat, w, s, key);
  }

  /** No event revises the datasets to an incoherent state. */
  ghost predicate CoherentRevisions(w: World, events: seq<Event>) {
    forall e | e in events && e.Revise? :: Coherent(w, e.ds)
  }

  lemma {:induction false} HistoryKeepsInvFrom(cat: Catalog, w: World, s: State, events: seq<Event>)
    requires Inv(cat, w, s) && CoherentRevisions(w, events)
    ensures Inv(cat, w, ReplayFrom(cat, w, s, events))
    decreases |events|
  {
    if events != [] {
      var init, e := events[..|events| - 1], events[|events| - 1];
      assert e in events && forall x | x in init :: x in events;
      HistoryKeepsInvFrom(cat, w, s, init);
      StepKeepsInv(cat, w, ReplayFrom(cat, w, s, init), e);
    }
  }

  lemma {:induction false} EmptyStoreInv(cat: Catalog, w: World, ds: DatasetState)
    requires GoodWorld(w) && GoodCatalog(cat) && Coherent(w, ds)
    ensures Inv(cat, w, State(EMPTY_STORE, ds, map[]))
  {
  }

  lemma {:induction false} HistoryKeepsInv(cat: Catalog, w: World, ds: DatasetState, events: seq<Event>)
    requires GoodWorld(w) && GoodCatalog(cat) && Coherent(w, ds) && CoherentRevisions(w, events)
    ensures Inv(cat, w, Replay(cat, w, ds, events))
  {
    EmptyStoreInv(cat, w, ds);
    HistoryKeepsInvFrom(cat, w, State(EMPTY_STORE, ds, map[]), events);
  }

  /** The artifact an execution returns holds the cold value of the stage in the run's own plan. */
  ghost predicate HoldsCold(w: World, r: Run, id: StageId, o: Outcome) {
    && Resolvable(Dependencies(r.plan), id)
    && (o.result.Ok? ==>
         && KeyOf(o.result.value) in o.store.artifacts
         && Cold(w, r.plan, r.ds, id) == Some(o.store.artifacts[KeyOf(o.result.value)]))
  }

  lemma {:induction false} GoodOutcomeHoldsCold(
    cat: Catalog, w: World, s: State, workspace: string, plan: string, id: StageId, o: Outcome)
    requires Inv(cat, w, s) && CanRun(cat, s, workspace, plan, id) && GoodOutcome(cat, w, s, workspace, plan, id, o)
    ensures HoldsCold(w, s.runs[(workspace, plan)], id, o)
  {
    var p, r := cat.plans[plan], s.runs[(workspace, plan)];
    assert RunOk(w, p, s.store, workspace, plan, r);
    BoundHasContents(w, p, r.ds);
    AlikeCold(w, r.plan, p, r.ds, id);
  }

  /**
   * The cache agrees with recomputation: after any history, an artifact that executing a stage
   * returns, whether found by the lookup, computed at once or landed after anything else has
   * happened, holds the value of that stage computed cold on the run's datasets.
   */
  lemma {:induction false} CacheAgreesWithRecomputation(
    cat: Catalog, w: World, ds: DatasetState, events: seq<Event>,
    workspace: string, plan: string, id: StageId, fault: bool)
    requires GoodWorld(w) && GoodCatalog(cat) && Coherent(w, ds) && CoherentRevisions(w, events)
    requires CanRun(cat, Replay(cat, w, ds, events), workspace, plan, id)
    ensures var s := Replay(cat, w, ds, events);
      && HoldsCold(w, s.runs[(workspace, plan)], id, StageOutcome(cat, w, s, workspace, plan, id, fault))
      && (CanLand(cat, s, workspace, plan, id) ==>
           HoldsCold(w, s.runs[(workspace, plan)], id, LandOutcome(cat, w, s, workspace, plan, id, fault)))
  {
    var s := Replay(cat, w, ds, events);
    HistoryKeepsInv(cat, w, ds, events);
    StageOutcomeIsGood(cat, w, s, workspace, plan, id, fault);
    GoodOutcomeHoldsCold(cat, w, s, workspace, plan, id, StageOutcome(cat, w, s, workspace, plan, id, fault));
    if CanLand(cat, s, workspace, plan, id) {
      LandOutcomeIsGood(cat, w, s, workspace, plan, id, fault);
      GoodOutcomeHoldsCold(cat, w, s, workspace, plan, id, LandOutcome(cat, w, s, workspace, plan, id, fault));
    }
  }
}
