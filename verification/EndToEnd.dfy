/** From a query to its answer: planning, scheduling, execution and caching together compute the query. */
module EndToEnd {
  import opened Prelude
  import opened Dag
  import opened Sql
  import opened JoinFilter
  import opened Renderer
  import opened Plans
  import opened Planner
  import opened PushdownProperties
  import opened Store
  import opened Execution
  import opened Interleaving
  import opened Rerun
  import opened Engine
  import opened StagePlans
  import opened PlanIdentity
  import S = Scheduler
  import SP = SchedulerProperties
  import H = CacheHistory
  import M = CacheMeaning
  import C = CacheContext
  import CP = CacheProperties

  // ----- what a plan is worth -----

  function PhysicalPlanOf(r: Request, lookup: map<string, string>): PhysicalPlan
    requires Bound(r) && r.tables != []
  {
    BuildPlan(PlanOf(r, lookup), r.tables)
  }

  /** All the conditions under which the engine promises to answer the query. */
  ghost predicate Answerable(sem: Semantics, w: World, r: Request, ds: DatasetState) {
    if Bound(r) && FullPushdown(r) then RunsWhole(sem, w, r, ds)
    else
      && WellFormed(r) && OwnColumnsOnly(r) && SafePushdown(sem, r)
      && SqlWorld(sem, w) && Served(w, r, ds) && AllLocated(w, r)
  }

  /** Every stage has a value, and the result stage has that of the query. */
  ghost predicate Computes(sem: Semantics, w: World, p: StagePlan, result: StageId, r: Request, ds: DatasetState) {
    && (forall id | id in p.stages ::
         Resolvable(Dependencies(p), id) && Cold(w, p, ds, id).Some? && S.MaxAttempts(ToStage(p.stages[id])) == 3)
    && result in p.stages && Cold(w, p, ds, result) == Some(EvalQuery(sem, r.query, SourceTables(r.tables, ds)))
  }

  lemma {:induction false} SplitPlanComputes(
    sem: Semantics, w: World, r: Request, lookup: map<string, string>, ds: DatasetState)
    requires WellFormed(r) && OwnColumnsOnly(r) && SafePushdown(sem, r) && IsLookup(r.norm, Items(r.query), lookup)
    requires SqlWorld(sem, w) && Served(w, r, ds) && AllLocated(w, r)
    ensures Computes(sem, w, SplitStagePlan(r, lookup), FINAL_STAGE, r, ds)
  {
    var p := SplitStagePlan(r, lookup);
    SplitStagesById(r, lookup);
    FinalStageReadsTheScans(r, lookup);
    SplitPlanResolvable(r, lookup, p);
    FinalStageIsTheQuery(sem, w, r, lookup, ds);
    forall id | id in p.stages ensures Cold(w, p, ds, id).Some? && S.MaxAttempts(ToStage(p.stages[id])) == 3 {
      if id != FINAL_STAGE {
        var i :| 0 <= i < |r.tables| && id == ScanId(r, i);
        ScanStageValue(sem, w, r, lookup, p, ds, i);
      }
    }
  }

  lemma {:induction false} FullPlanComputes(sem: Semantics, w: World, r: Request, ds: DatasetState)
    requires RunsWhole(sem, w, r, ds)
    ensures Computes(sem, w, FullStagePlan(r), FullStage(r).id, r, ds)
  {
    FullStageIsTheQuery(sem, w, r, ds);
  }

  lemma {:induction false} FullPhysicalPlan(r: Request, lookup: map<string, string>)
    requires Bound(r) && r.tables != [] && FullPushdown(r)
    ensures var plan := PhysicalPlanOf(r, lookup);
      StagesOf(plan) == FullStagePlan(r) && plan.resultStage == FullStage(r).id
  {
  }

  lemma {:induction false} SplitPhysicalPlan(r: Request, lookup: map<string, string>)
    requires Bound(r) && r.tables != [] && !FullPushdown(r)
    ensures var plan := PhysicalPlanOf(r, lookup);
      StagesOf(plan) == SplitStagePlan(r, lookup) && plan.resultStage == FINAL_STAGE
  {
  }

  lemma {:induction false} PlanComputes(
    sem: Semantics, w: World, r: Request, lookup: map<string, string>, ds: DatasetState)
    requires Bound(r) && r.tables != [] && Answerable(sem, w, r, ds) && IsLookup(r.norm, Items(r.query), lookup)
    ensures var plan := PhysicalPlanOf(r, lookup); Computes(sem, w, StagesOf(plan), plan.resultStage, r, ds)
  {
    if FullPushdown(r) {
      FullPlanComputes(sem, w, r, ds);
      FullPhysicalPlan(r, lookup);
    } else {
      SplitPlanComputes(sem, w, r, lookup, ds);
      SplitPhysicalPlan(r, lookup);
    }
  }

  // ----- every interleaving -----

  /** The run is over the stages of this plan. */
  ghost predicate RunsOver(x: Setting, plan: PhysicalPlan) {
    x.plan == SchedulerPlan(plan.stages) && x.stages == StagesOf(plan)
  }

  lemma {:induction false} NeverUnresolved(x: Setting, tr: Trace, plan: PhysicalPlan)
    requires x.p > 0 && S.Exec(x.p, x.plan, tr.events) == Some(tr.st) && RunsOver(x, plan)
    requires forall id | id in x.stages.stages :: Resolvable(Dependencies(x.stages), id)
    ensures !tr.st.status.Unresolved?
  {
    if tr.st.status.Unresolved? {
      PlanGraphIsDependencies(plan.stages, plan.tables);
      SP.UnresolvedReportIsExact(x.p, x.plan, tr.events);
      assert tr.st.status.ids[0] in tr.st.status.ids;
      UnresolvableIffDoomed(S.PlanGraph(x.plan), tr.st.status.ids[0]);
      assert false;
    }
  }

  lemma {:induction false} FinishedRunHasEveryArtifact(x: Setting, tr: Trace, plan: PhysicalPlan)
    requires x.p > 0 && S.Exec(x.p, x.plan, tr.events) == Some(tr.st) && tr.st.status.Finished? && RunsOver(x, plan)
    ensures tr.st.artifacts.Keys == tr.st.completed == x.stages.stages.Keys
  {
    SP.FinishedMeansResolvable(x.p, x.plan, tr.events);
    S.ReachableInv(x.p, x.plan, tr.events);
    PlanGraphIsDependencies(plan.stages, plan.tables);
  }

  /** The artifact holds the value of the query over the source tables. */
  ghost predicate Answers(sem: Semantics, r: Request, ds: DatasetState, c: Contents, a: Artifact) {
    KeyOf(a) in c.artifacts && c.artifacts[KeyOf(a)] == EvalQuery(sem, r.query, SourceTables(r.tables, ds))
  }

  /** What a trace of an answerable query promises. */
  ghost predicate Promise(sem: Semantics, x: Setting, r: Request, tr: Trace, result: StageId) {
    && !tr.st.status.Unresolved?
    && (tr.st.status.Finished? ==>
         result in tr.st.artifacts && Answers(sem, r, x.ds, tr.h.store, tr.st.artifacts[result]))
  }

  lemma {:induction false} SoundTracePromises(sem: Semantics, x: Setting, tr: Trace, r: Request, plan: PhysicalPlan)
    requires Sound(x, tr) && RunsOver(x, plan) && Computes(sem, x.w, x.stages, plan.resultStage, r, x.ds)
    ensures Promise(sem, x, r, tr, plan.resultStage)
  {
    NeverUnresolved(x, tr, plan);
    if tr.st.status.Finished? {
      FinishedRunHasEveryArtifact(x, tr, plan);
      assert ArtifactOk(x, tr.h.store, plan.resultStage, tr.st.artifacts[plan.resultStage]);
    }
  }

  /**
   * Every interleaving answers: whatever the parallelism, the order in which tasks are dispatched
   * and complete, what happens while their sources are asked, the faults, and the runs and revisions
   * elsewhere, a path of a run of an answerable query never ends unresolved; when it finishes, the
   * artifact of the result stage holds the value of the query; and when it fails, all three attempts
   * of one stage were made to fail.
   */
  lemma {:induction false} EveryInterleavingAnswers(
    sem: Semantics, x: Setting, steps: seq<Step>, r: Request, lookup: map<string, string>)
    requires Bound(r) && r.tables != [] && Answerable(sem, x.w, r, x.ds) && IsLookup(r.norm, Items(r.query), lookup)
    requires RunsOver(x, PhysicalPlanOf(r, lookup)) && PathTo(x, steps).Some?
    ensures var tr := PathTo(x, steps).value;
      && Promise(sem, x, r, tr, PhysicalPlanOf(r, lookup).resultStage)
      && (tr.st.status.Failed? ==> Tries(steps, tr.st.status.id) == FaultedTries(steps, tr.st.status.id) == 3)
  {
    PlanComputes(sem, x.w, r, lookup, x.ds);
    ComputedPathAnswers(sem, x, steps, r, PhysicalPlanOf(r, lookup));
  }

  lemma {:induction false} ComputedPathAnswers(
    sem: Semantics, x: Setting, steps: seq<Step>, r: Request, plan: PhysicalPlan)
    requires RunsOver(x, plan) && Computes(sem, x.w, x.stages, plan.resultStage, r, x.ds) && PathTo(x, steps).Some?
    ensures var tr := PathTo(x, steps).value;
      && Promise(sem, x, r, tr, plan.resultStage)
      && (tr.st.status.Failed? ==> Tries(steps, tr.st.status.id) == FaultedTries(steps, tr.st.status.id) == 3)
  {
    var tr := PathTo(x, steps).value;
    PathIsSound(x, steps);
    SoundTracePromises(sem, x, tr, r, plan);
    if tr.st.status.Failed? {
      FailureIsFaulted(x, steps);
      ComputedStage(sem, x.w, x.stages, plan.resultStage, r, x.ds, tr.st.status.id);
    }
  }

  /** A finished run leaves a store that serves the next run of the plan. */
  lemma {:induction false} FinishedRunIsComplete(x: Setting, tr: Trace, plan: PhysicalPlan)
    requires Sound(x, tr) && tr.st.status.Finished? && RunsOver(x, plan)
    ensures CP.CompleteRun(x.cat, x.w, tr.h, x.workspace, x.planId)
  {
    FinishedRunHasEveryArtifact(x, tr, plan);
    RunPlanStages(x, tr.h);
    assert H.RunOk(x.w, x.cat.plans[x.planId], tr.h.store, x.workspace, x.planId, tr.h.runs[(x.workspace, x.planId)]);
  }

  /** The plan of a finished run begins again, after any events elsewhere, on the same bindings and untainted. */
  ghost predicate RunsAgain(x0: Setting, tr0: Trace, between: seq<H.Event>, x: Setting) {
    && x.cat == x0.cat && x.w == x0.w && x.workspace == x0.workspace && x.planId == x0.planId
    && (forall e | e in between :: IsElsewhere(x, e)) && x.start == H.ReplayFrom(x.cat, x.w, tr0.h, between)
    && x.ds.bindings == x0.ds.bindings && x.planId in x.cat.plans
    && forall id | id in x.cat.plans[x.planId].stages :: !CP.Tainted(x.cat.plans[x.planId], x.ds.bindings, id)
  }

  /** The run has not failed and asks no source; it records artifacts of the first, and all of them if it finishes. */
  ghost predicate RepeatsTheFirst(first: map<StageId, Artifact>, x: Setting, tr: Trace) {
    && !tr.st.status.Failed? && (x.workspace, x.planId) in tr.h.runs && Asked(x, tr.h) == {}
    && (forall id | id in tr.st.artifacts :: id in first && tr.st.artifacts[id] == first[id])
    && (tr.st.status.Finished? ==> tr.st.artifacts == first)
  }

  /**
   * Running an untainted plan again on the same bindings: along every path of the second run, whatever
   * the outside world makes fail, it does not fail and asks no source, and it records the very
   * artifacts of the first run.
   */
  lemma {:induction false} SecondRunRepeatsTheFirst(
    x0: Setting, steps0: seq<Step>, tr0: Trace, plan0: PhysicalPlan, between: seq<H.Event>,
    x: Setting, steps: seq<Step>, tr: Trace, plan: PhysicalPlan)
    requires PathTo(x0, steps0) == Some(tr0) && tr0.st.status.Finished? && RunsOver(x0, plan0)
    requires RunsAgain(x0, tr0, between, x) && PathTo(x, steps) == Some(tr) && RunsOver(x, plan)
    ensures RepeatsTheFirst(tr0.st.artifacts, x, tr)
  {
    PathIsSound(x0, steps0);
    PathIsSound(x, steps);
    PathIsListed(x0, steps0);
    FirstRunServes(x0, tr0, plan0, between, x);
    SecondRunRepeats(x, tr0.h, between, steps);
    SameArtifacts(x0, tr0, plan0, x, tr, plan);
  }

  lemma {:induction false} FirstRunServes(
    x0: Setting, tr0: Trace, plan0: PhysicalPlan, between: seq<H.Event>, x: Setting)
    requires Sound(x0, tr0) && tr0.st.status.Finished? && RunsOver(x0, plan0) && RunsAgain(x0, tr0, between, x)
    ensures SecondRun(x, tr0.h, between)
  {
    FinishedRunIsComplete(x0, tr0, plan0);
  }

  lemma {:induction false} SameArtifacts(
    x0: Setting, tr0: Trace, plan0: PhysicalPlan, x: Setting, tr: Trace, plan: PhysicalPlan)
    requires Sound(x0, tr0) && tr0.st.status.Finished? && RunsOver(x0, plan0) && Listed(x0, tr0.st, tr0.h.store)
    requires Sound(x, tr) && RunsOver(x, plan) && Repeats(x, tr0.h, tr.st) && Asked(x, tr.h) == {}
    requires x.cat == x0.cat && x.w == x0.w && x.planId == x0.planId && x.workspace == x0.workspace
    ensures RepeatsTheFirst(tr0.st.artifacts, x, tr)
  {
    FinishedRunHasEveryArtifact(x0, tr0, plan0);
    SamePlanStages(x0, tr0, x, tr);
    RecordedAreStages(x, tr);
    if tr.st.status.Finished? { FinishedRunHasEveryArtifact(x, tr, plan); }
    SameListedArtifacts(x0, tr0.st, tr0.h, x, tr.st);
  }

  /** Both runs record what the manifests of the first say. */
  lemma {:induction false} SameListedArtifacts(x0: Setting, st0: SchedState, s0: H.State, x: Setting, st: SchedState)
    requires Listed(x0, st0, s0.store) && Repeats(x, s0, st)
    requires x.planId == x0.planId && x.workspace == x0.workspace && st.artifacts.Keys <= st0.artifacts.Keys
    ensures forall id | id in st.artifacts :: id in st0.artifacts && st.artifacts[id] == st0.artifacts[id]
    ensures st.artifacts.Keys == st0.artifacts.Keys ==> st.artifacts == st0.artifacts
  {
    forall id | id in st.artifacts ensures st.artifacts[id] == st0.artifacts[id] {
      assert FirstOutput(x, s0, id, st.artifacts[id]) && Lists(x0, s0.store, id, st0.artifacts[id]);
    }
  }

  lemma {:induction false} SamePlanStages(x0: Setting, tr0: Trace, x: Setting, tr: Trace)
    requires Sound(x0, tr0) && Sound(x, tr) && x.cat == x0.cat && x.w == x0.w
    requires x.planId == x0.planId && x.workspace == x0.workspace
    ensures x.stages.stages.Keys == x0.stages.stages.Keys
  {
    RunPlanStages(x0, tr0.h);
    RunPlanStages(x, tr.h);
  }

  lemma {:induction false} RecordedAreStages(x: Setting, tr: Trace)
    requires Sound(x, tr)
    ensures forall id | id in tr.st.artifacts :: id in x.stages.stages
  {
    forall id | id in tr.st.artifacts ensures id in x.stages.stages {
      assert ArtifactOk(x, tr.h.store, id, tr.st.artifacts[id]);
    }
  }

  // ----- the service -----

  datatype Handle = Handle(
    workspace: string, planId: string, resultStage: StageId, artifact: Artifact, metrics: seq<(StageId, nat)>)

  datatype QueryFailure = Unresolved(ids: seq<StageId>) | Failed(id: StageId, error: ExecError)

  lemma {:induction false} ResultStageListed(o: Optimized, tables: seq<TableRef>)
    requires o.localSql.None? ==> o.subplans != []
    ensures var plan := BuildPlan(o, tables); plan.resultStage in StagesOf(plan).stages
  {
    var plan := BuildPlan(o, tables);
    StageMapKeys(plan.stages);
    assert plan.stages[|plan.stages| - 1].id == plan.resultStage;
  }

  /** The right answer, or one stage whose three attempts were all made to fail. */
  ghost predicate Delivered(
    sem: Semantics, r: Request, ds: DatasetState, faults: Faults, c: Contents, answer: Result<Handle, QueryFailure>)
  {
    match answer
    case Ok(h) => Answers(sem, r, ds, c, h.artifact)
    case Err(Unresolved(_)) => false
    case Err(Failed(id, _)) => {(id, 1), (id, 2), (id, 3)} <= faults
  }

  ghost predicate RunGave(x: Setting, tr: Trace, plan: PhysicalPlan, answer: Result<Handle, QueryFailure>) {
    match answer
    case Ok(h) =>
      && h.workspace == x.workspace && h.planId == x.planId && h.metrics == SP.MetricsList(x.plan, tr.st.metrics)
      && tr.st.status.Finished? && h.resultStage == plan.resultStage && plan.resultStage in tr.st.artifacts
      && h.artifact == tr.st.artifacts[plan.resultStage]
    case Err(Unresolved(_)) => tr.st.status.Unresolved?
    case Err(Failed(id, _)) => tr.st.status == S.Failed(id)
  }

  /** The handle names the run, and has the dispatches of every stage, one to three, in the plan's order. */
  ghost predicate Labelled(h: Handle, workspace: string, planId: string, plan: PhysicalPlan) {
    && h.workspace == workspace && h.planId == planId && h.resultStage == plan.resultStage
    && |h.metrics| == |plan.stages|
    && forall i | 0 <= i < |h.metrics| :: h.metrics[i].0 == plan.stages[i].id && 1 <= h.metrics[i].1 <= 3
  }

  /** It names the run of this request's plan. */
  ghost predicate LabelledFor(
    planHash: PlanPayload -> string, r: Request, lookup: map<string, string>, workspace: string, h: Handle)
    requires Bound(r) && r.tables != []
  {
    && IsLookup(r.norm, Items(r.query), lookup)
    && h.resultStage == (if FullPushdown(r) then "scan_full_query" else "local_compute_final")
    && Labelled(h, workspace, planHash(PayloadOf(r, PlanOf(r, lookup))), PhysicalPlanOf(r, lookup))
  }

  ghost predicate IsLabelled(planHash: PlanPayload -> string, r: Request, workspace: string, h: Handle)
    requires Bound(r) && r.tables != []
  {
    exists lookup :: LabelledFor(planHash, r, lookup, workspace, h)
  }

  lemma {:induction false} RetriesOfPlan(r: Request, lookup: map<string, string>)
    requires Bound(r) && r.tables != []
    ensures forall s | s in PhysicalPlanOf(r, lookup).stages :: s.retryLimit == 2
  {
  }

  lemma {:induction false} MetricsOfRun(p: nat, stages: seq<StageDef>, events: seq<SchedEvent>)
    requires p > 0 && S.Exec(p, SchedulerPlan(stages), events).Some?
    requires S.Exec(p, SchedulerPlan(stages), events).value.status.Finished?
    requires forall s | s in stages :: s.retryLimit == 2
    ensures var plan := SchedulerPlan(stages); var list := SP.MetricsList(plan, S.Exec(p, plan, events).value.metrics);
      |list| == |stages| && forall i | 0 <= i < |list| :: list[i].0 == stages[i].id && 1 <= list[i].1 <= 3
  {
    var plan := SchedulerPlan(stages);
    SP.FinishedMetrics(p, plan, events);
    SP.DispatchedWithin(p, plan, events, 3);
  }

  lemma {:induction false} HandleIsLabelled(
    planHash: PlanPayload -> string, x: Setting, faults: Faults, tr: Trace, r: Request, lookup: map<string, string>,
    answer: Result<Handle, QueryFailure>)
    requires Bound(r) && r.tables != [] && IsLookup(r.norm, Items(r.query), lookup)
    requires Reached(x, faults, tr) && RunsOver(x, PhysicalPlanOf(r, lookup))
    requires RunGave(x, tr, PhysicalPlanOf(r, lookup), answer)
    requires x.planId == planHash(PayloadOf(r, PlanOf(r, lookup)))
    ensures answer.Ok? ==> IsLabelled(planHash, r, x.workspace, answer.value)
  {
    if answer.Ok? {
      ReachedIsSound(x, faults, tr);
      RetriesOfPlan(r, lookup);
      RunIsLabelled(x, tr, PhysicalPlanOf(r, lookup), answer.value);
      ResultStageOf(r, lookup);
      assert LabelledFor(planHash, r, lookup, x.workspace, answer.value);
    }
  }

  lemma {:induction false} RunIsLabelled(x: Setting, tr: Trace, plan: PhysicalPlan, h: Handle)
    requires x.p > 0 && S.Exec(x.p, x.plan, tr.events) == Some(tr.st) && RunsOver(x, plan)
    requires RunGave(x, tr, plan, Ok(h)) && forall s | s in plan.stages :: s.retryLimit == 2
    ensures Labelled(h, x.workspace, x.planId, plan)
  {
    MetricsOfRun(x.p, plan.stages, tr.events);
  }

  lemma {:induction false} ResultStageOf(r: Request, lookup: map<string, string>)
    requires Bound(r) && r.tables != []
    ensures PhysicalPlanOf(r, lookup).resultStage ==
      if FullPushdown(r) then "scan_full_query" else "local_compute_final"
  {
  }

  lemma {:induction false} RunDelivers(
    sem: Semantics, x: Setting, faults: Faults, tr: Trace, r: Request, plan: PhysicalPlan,
    answer: Result<Handle, QueryFailure>)
    requires Reached(x, faults, tr) && RunsOver(x, plan) && Computes(sem, x.w, x.stages, plan.resultStage, r, x.ds)
    requires RunGave(x, tr, plan, answer)
    ensures Delivered(sem, r, x.ds, faults, tr.h.store, answer)
  {
    ReachedIsSound(x, faults, tr);
    SoundTracePromises(sem, x, tr, r, plan);
    if tr.st.status.Failed? { FaultedThreeTimes(sem, x, faults, tr, r, plan.resultStage); }
  }

  lemma {:induction false} AnswerIsDelivered(
    sem: Semantics, x: Setting, faults: Faults, tr: Trace, r: Request, lookup: map<string, string>,
    answer: Result<Handle, QueryFailure>)
    requires Bound(r) && r.tables != [] && IsLookup(r.norm, Items(r.query), lookup)
    requires Reached(x, faults, tr) && RunsOver(x, PhysicalPlanOf(r, lookup))
    requires RunGave(x, tr, PhysicalPlanOf(r, lookup), answer)
    ensures H.Inv(x.cat, x.w, tr.h)
    ensures Answerable(sem, x.w, r, x.ds) ==> Delivered(sem, r, x.ds, faults, tr.h.store, answer)
  {
    ReachedKeepsInv(x, faults, tr);
    if Answerable(sem, x.w, r, x.ds) {
      PlanComputes(sem, x.w, r, lookup, x.ds);
      RunDelivers(sem, x, faults, tr, r, PhysicalPlanOf(r, lookup), answer);
    }
  }

  lemma {:induction false} FaultedThreeTimes(
    sem: Semantics, x: Setting, faults: Faults, tr: Trace, r: Request, result: StageId)
    requires Reached(x, faults, tr) && tr.st.status.Failed? && Computes(sem, x.w, x.stages, result, r, x.ds)
    ensures var id := tr.st.status.id; {(id, 1), (id, 2), (id, 3)} <= faults
  {
    ReachedFailure(x, faults, tr);
    ComputedStage(sem, x.w, x.stages, result, r, x.ds, tr.st.status.id);
    ThreeFaults(faults, tr.st.status.id, S.MaxAttempts(ToStage(x.stages.stages[tr.st.status.id])));
  }

  lemma {:induction false} ComputedStage(
    sem: Semantics, w: World, p: StagePlan, result: StageId, r: Request, ds: DatasetState, id: StageId)
    requires Computes(sem, w, p, result, r, ds) && id in p.stages
    ensures Resolvable(Dependencies(p), id) && Cold(w, p, ds, id).Some? && S.MaxAttempts(ToStage(p.stages[id])) == 3
  {
  }

  lemma {:induction false} ThreeFaults(faults: Faults, id: StageId, n: nat)
    requires n == 3 && forall k | 1 <= k <= n :: (id, k) in faults
    ensures {(id, 1), (id, 2), (id, 3)} <= faults
  {
  }

  /** The catalog has, under the id of the plan, one that a run cannot tell from it; and a run may begin. */
  ghost predicate Planned(
    planHash: PlanPayload -> string, w: World, r: Request, workspace: string, cat: H.Catalog, start: H.State)
    requires Bound(r) && r.tables != []
  {
    forall lookup | IsLookup(r.norm, Items(r.query), lookup) ::
      H.CanBegin(
        cat, w, start, workspace, planHash(PayloadOf(r, PlanOf(r, lookup))), StagesOf(PhysicalPlanOf(r, lookup)))
  }

  /**
   * Re-pointing the bindings of a query without changing its plan id, by the physical names or the
   * subquery that a table reference does not carry, leaves it planned.
   */
  lemma {:induction false} ReboundStaysPlanned(
    sem: Semantics, planHash: PlanPayload -> string, w: World, r: Request, r': Request, workspace: string,
    cat: H.Catalog, start: H.State, start': H.State)
    requires WellFormed(r) && OwnColumnsOnly(r) && Rebinds(r, r') && Bound(r') && SqlWorld(sem, w)
    requires Referenced(r) && Referenced(r') && SameReferences(r, r') && (FullPushdown(r) <==> FullPushdown(r'))
    requires forall i | 0 <= i < |r.tables| :: SamePushed(r, r', i)
    requires AllLocated(w, r) && AllLocated(w, r')
    requires Planned(planHash, w, r, workspace, cat, start)
    requires start.ds.bindings.Keys == start'.ds.bindings.Keys
    ensures Planned(planHash, w, r', workspace, cat, start')
  {
    SameTablesIff(r, r');
    forall lookup | IsLookup(r.norm, Items(r.query), lookup)
      ensures var id := planHash(PayloadOf(r', PlanOf(r', lookup)));
        H.CanBegin(cat, w, start', workspace, id, StagesOf(PhysicalPlanOf(r', lookup)))
    {
      SamePlanIdIff(r, r', lookup);
      var id := planHash(PayloadOf(r, PlanOf(r, lookup)));
      assert H.CanBegin(cat, w, start, workspace, id, StagesOf(PhysicalPlanOf(r, lookup)));
      if !FullPushdown(r) { ReboundCanBegin(sem, w, r, r', lookup, workspace, id, cat, start, start'); }
    }
  }

  lemma {:induction false} ReboundCanBegin(
    sem: Semantics, w: World, r: Request, r': Request, lookup: map<string, string>, workspace: string, id: string,
    cat: H.Catalog, start: H.State, start': H.State)
    requires WellFormed(r) && OwnColumnsOnly(r) && Rebinds(r, r') && Bound(r') && SqlWorld(sem, w)
    requires r.tables == r'.tables && forall i | 0 <= i < |r.tables| :: SamePushed(r, r', i)
    requires AllLocated(w, r) && AllLocated(w, r')
    requires start.ds.bindings.Keys == start'.ds.bindings.Keys
    requires H.CanBegin(cat, w, start, workspace, id, SplitStagePlan(r, lookup))
    ensures H.CanBegin(cat, w, start', workspace, id, SplitStagePlan(r', lookup))
  {
    ReboundPlansAreAlike(sem, w, r, r', lookup);
    AlikeIsSymmetric(w, SplitStagePlan(r, lookup), SplitStagePlan(r', lookup));
    AlikeIsTransitive(w, SplitStagePlan(r', lookup), SplitStagePlan(r, lookup), cat.plans[id]);
  }

  // ----- the service can be called -----

  lemma {:induction false} ScanIdIsPlain(a: string)
    requires PlainName(a)
    ensures PlainName(StageIdOf(a))
  {
    var id := StageIdOf(a);
    assert "scan_"[0] == 's' && "scan_"[1] == 'c' && "scan_"[2] == 'a' && "scan_"[3] == 'n' && "scan_"[4] == '_';
    forall i | 0 <= i < |id| ensures PlainChar(id[i]) { if i >= 5 { assert id[i] == a[i - 5]; } }
    forall i | 0 <= i < |id| - 1 ensures !(id[i] == '.' && id[i + 1] == '.') {
      if i >= 5 { assert id[i] == a[i - 5] && id[i + 1] == a[i - 4]; }
    }
  }

  lemma {:induction false} FinalStageIsPlain()
    ensures PlainName(FINAL_STAGE)
  {
    var id := FINAL_STAGE;
    assert forall c | c in id :: c != '.' && PlainChar(c);
  }

  lemma {:induction false} FullStageIdIsPlain()
    ensures PlainName("scan_full_query")
  {
    var id := "scan_full_query";
    assert forall c | c in id :: c != '.' && PlainChar(c);
  }

  /** The plan of a request is one that the executor expects, over tables that are bound, under plain names. */
  lemma {:induction false} PlanIsGood(r: Request, lookup: map<string, string>)
    requires Bound(r) && r.tables != [] && (!FullPushdown(r) ==> WellFormed(r))
    requires forall i | 0 <= i < |r.tables| :: PlainName(r.tables[i].alias)
    ensures var p := StagesOf(PhysicalPlanOf(r, lookup));
      M.Built(p) && M.PlanBound(p, r.bindings) && forall id | id in p.stages :: PlainName(id)
  {
    if FullPushdown(r) {
      FullPhysicalPlan(r, lookup);
      FullStageIdIsPlain();
      FullStageReadsBoundTables(r);
    } else {
      SplitPhysicalPlan(r, lookup);
      SplitPlanIsBuilt(r, lookup);
      SplitStageIdsArePlain(r, lookup);
      SplitPlanIsBound(r, lookup);
    }
  }

  lemma {:induction false} FullStageReadsBoundTables(r: Request)
    requires Bound(r) && r.tables != []
    ensures forall k | k in C.TableKeys(r.tables, FullStage(r)) :: k in r.bindings
  {
    var source := Strip(FullStage(r).sourceId);
    SortKeepsMembers(C.TableKeysOfSource(r.tables, source));
    SortKeepsMembers(C.TableKeysOfSource(r.tables, Strip(r.tables[0].sourceId)));
    KeysOfSourceAreTables(r.tables, source);
    forall k | k in C.TableKeysOfSource(r.tables, source) ensures k in r.bindings {
      var t :| t in r.tables && t.tableKey == k;
      var i :| 0 <= i < |r.tables| && r.tables[i] == t;
    }
  }

  lemma {:induction false} KeysOfSourceAreTables(tables: seq<TableRef>, source: string)
    ensures forall k | k in C.TableKeysOfSource(tables, source) :: exists t :: t in tables && t.tableKey == k
  {
    if tables != [] { KeysOfSourceAreTables(tables[1..], source); }
  }

  /** From the empty store: the catalog with just this query's plan is good, and the service can be called. */
  lemma {:induction false} ServiceCanBeCalled(
    planHash: PlanPayload -> string, w: World, r: Request, workspace: string, contents: map<string, Table>,
    lookup: map<string, string>) returns (cat: H.Catalog, start: H.State)
    requires Bound(r) && r.tables != [] && (!FullPushdown(r) ==> WellFormed(r))
    requires IsLookup(r.norm, Items(r.query), lookup)
    requires M.GoodWorld(w) && M.Coherent(w, DatasetState(r.bindings, contents))
    requires PlainName(workspace) && PlainName(planHash(PayloadOf(r, PlanOf(r, lookup))))
    requires forall i | 0 <= i < |r.tables| :: PlainName(r.tables[i].alias)
    ensures H.Inv(cat, w, start) && start.ds == DatasetState(r.bindings, contents) && start.store == H.EMPTY_STORE
    ensures Planned(planHash, w, r, workspace, cat, start)
  {
    var p, id := StagesOf(PhysicalPlanOf(r, lookup)), planHash(PayloadOf(r, PlanOf(r, lookup)));
    cat := H.Catalog({workspace}, map[id := p]);
    start := H.State(H.EMPTY_STORE, DatasetState(r.bindings, contents), map[]);
    PlanIsGood(r, lookup);
    OnePlanIsGood(w, workspace, id, p, start.ds);
    AlikeIsReflexive(w, p);
    OneLookupIsPlanned(planHash, w, r, workspace, lookup, cat, start);
  }

  // ----- one catalog for many queries -----

  ghost predicate InjectiveIds(planHash: PlanPayload -> string) {
    forall x, y | planHash(x) == planHash(y) :: x == y
  }

  /** Requests with a lookup each, planned for the same sources and dialects over bindings without overrides. */
  ghost predicate PlannedTogether(rs: seq<Request>, lookups: seq<map<string, string>>) {
    && |lookups| == |rs|
    && (forall i | 0 <= i < |rs| ::
         && Bound(rs[i]) && rs[i].tables != [] && (!FullPushdown(rs[i]) ==> WellFormed(rs[i]) && OwnColumnsOnly(rs[i]))
         && IsLookup(rs[i].norm, Items(rs[i].query), lookups[i]))
    && forall i, j | 0 <= i < |rs| && 0 <= j < |rs| :: Comparable(rs[i], rs[j])
  }

  ghost function PlanIdOf(planHash: PlanPayload -> string, r: Request, lookup: map<string, string>): string
    requires Bound(r) && r.tables != []
  {
    planHash(PayloadOf(r, PlanOf(r, lookup)))
  }

  datatype PlanEntry = PlanEntry(id: string, plan: StagePlan)

  ghost function EntriesOf(
    planHash: PlanPayload -> string, rs: seq<Request>, lookups: seq<map<string, string>>): (r: seq<PlanEntry>)
    requires PlannedTogether(rs, lookups)
    ensures |r| == |rs| && forall i | 0 <= i < |r| ::
      r[i] == PlanEntry(PlanIdOf(planHash, rs[i], lookups[i]), StagesOf(PhysicalPlanOf(rs[i], lookups[i])))
  {
    seq(|rs|, i requires 0 <= i < |rs| =>
      PlanEntry(PlanIdOf(planHash, rs[i], lookups[i]), StagesOf(PhysicalPlanOf(rs[i], lookups[i]))))
  }

  function PlansById(entries: seq<PlanEntry>): map<string, StagePlan> {
    if entries == [] then map[]
    else PlansById(entries[..|entries| - 1])[entries[|entries| - 1].id := entries[|entries| - 1].plan]
  }

  lemma {:induction false} OnePlanPerId(entries: seq<PlanEntry>, i: nat)
    requires i < |entries|
    requires forall j, k | 0 <= j < |entries| && 0 <= k < |entries| ::
      entries[j].id == entries[k].id ==> entries[j].plan == entries[k].plan
    ensures entries[i].id in PlansById(entries) && PlansById(entries)[entries[i].id] == entries[i].plan
  {
    if i < |entries| - 1 { OnePlanPerId(entries[..|entries| - 1], i); }
  }

  lemma {:induction false} PlansListed(entries: seq<PlanEntry>, id: string) returns (i: nat)
    requires id in PlansById(entries)
    ensures i < |entries| && entries[i].id == id && entries[i].plan == PlansById(entries)[id]
  {
    i := |entries| - 1;
    if id != entries[i].id { i := PlansListed(entries[..|entries| - 1], id); }
  }

  /** A plan as the executor expects it, under plain names. */
  ghost predicate GoodEntry(e: PlanEntry) {
    M.Built(e.plan) && PlainName(e.id) && forall s | s in e.plan.stages :: PlainName(s)
  }

  lemma {:induction false} GoodEntriesGoodCatalog(entries: seq<PlanEntry>, workspace: string)
    requires PlainName(workspace) && forall i | 0 <= i < |entries| :: GoodEntry(entries[i])
    ensures H.GoodCatalog(H.Catalog({workspace}, PlansById(entries)))
  {
    var cat := H.Catalog({workspace}, PlansById(entries));
    forall id | id in cat.plans
      ensures M.Built(cat.plans[id]) && PlainName(id) && forall s | s in cat.plans[id].stages :: PlainName(s)
    {
      var i := PlansListed(entries, id);
    }
    H.PlainNamesAreSeparate(cat);
  }

  /** No plan id stands for two plans. */
  lemma {:induction false} SameIdSameStages(
    planHash: PlanPayload -> string, rs: seq<Request>, lookups: seq<map<string, string>>)
    requires InjectiveIds(planHash) && PlannedTogether(rs, lookups)
    ensures var entries := EntriesOf(planHash, rs, lookups);
      forall i, j | 0 <= i < |rs| && 0 <= j < |rs| ::
        entries[i].id == entries[j].id ==> entries[i].plan == entries[j].plan
  {
    var entries := EntriesOf(planHash, rs, lookups);
    forall i, j | 0 <= i < |rs| && 0 <= j < |rs|
      ensures entries[i].id == entries[j].id ==> entries[i].plan == entries[j].plan
    {
      assert Comparable(rs[i], rs[j]);
      if entries[i].id == entries[j].id { SamePlanIdSamePlan(rs[i], rs[j], lookups[i], lookups[j]); }
    }
  }

  /**
   * One catalog serves any number of queries at once: when plan ids do not collide, and names are
   * plain, each of them can be executed whenever its bindings are in effect, in any order and on
   * whatever the others left in the store.
   */
  lemma {:induction false} OneCatalogServesAll(
    planHash: PlanPayload -> string, w: World, rs: seq<Request>, lookups: seq<map<string, string>>, workspace: string)
    returns (cat: H.Catalog)
    requires InjectiveIds(planHash) && PlannedTogether(rs, lookups) && PlainName(workspace)
    requires forall i | 0 <= i < |rs| ::
      && PlainName(PlanIdOf(planHash, rs[i], lookups[i]))
      && forall k | 0 <= k < |rs[i].tables| :: PlainName(rs[i].tables[k].alias)
    ensures H.GoodCatalog(cat)
    ensures forall i, start: H.State | 0 <= i < |rs| && start.ds.bindings == rs[i].bindings ::
      Planned(planHash, w, rs[i], workspace, cat, start)
  {
    var entries := EntriesOf(planHash, rs, lookups);
    cat := H.Catalog({workspace}, PlansById(entries));
    forall i | 0 <= i < |entries| ensures GoodEntry(entries[i]) { PlanIsGood(rs[i], lookups[i]); }
    GoodEntriesGoodCatalog(entries, workspace);
    SameIdSameStages(planHash, rs, lookups);
    forall i, start: H.State | 0 <= i < |rs| && start.ds.bindings == rs[i].bindings
      ensures Planned(planHash, w, rs[i], workspace, cat, start)
    {
      OnePlanPerId(entries, i);
      EntryIsPlanned(planHash, w, rs[i], workspace, lookups[i], cat, start);
    }
  }

  lemma {:induction false} EntryIsPlanned(
    planHash: PlanPayload -> string, w: World, r: Request, workspace: string, lookup: map<string, string>,
    cat: H.Catalog, start: H.State)
    requires Bound(r) && r.tables != [] && (!FullPushdown(r) ==> WellFormed(r))
    requires forall k | 0 <= k < |r.tables| :: PlainName(r.tables[k].alias)
    requires IsLookup(r.norm, Items(r.query), lookup) && workspace in cat.workspaces
    requires PlanIdOf(planHash, r, lookup) in cat.plans
    requires cat.plans[PlanIdOf(planHash, r, lookup)] == StagesOf(PhysicalPlanOf(r, lookup))
    requires start.ds.bindings == r.bindings
    ensures Planned(planHash, w, r, workspace, cat, start)
  {
    PlanIsGood(r, lookup);
    AlikeIsReflexive(w, StagesOf(PhysicalPlanOf(r, lookup)));
    OneLookupIsPlanned(planHash, w, r, workspace, lookup, cat, start);
  }

  lemma {:induction false} OnePlanIsGood(w: World, workspace: string, id: string, p: StagePlan, ds: DatasetState)
    requires M.GoodWorld(w) && M.Coherent(w, ds) && M.Built(p)
    requires PlainName(workspace) && PlainName(id) && forall s | s in p.stages :: PlainName(s)
    ensures H.Inv(H.Catalog({workspace}, map[id := p]), w, H.State(H.EMPTY_STORE, ds, map[]))
  {
    var cat := H.Catalog({workspace}, map[id := p]);
    H.PlainNamesAreSeparate(cat);
    H.EmptyStoreInv(cat, w, ds);
  }

  lemma {:induction false} OneLookupIsPlanned(
    planHash: PlanPayload -> string, w: World, r: Request, workspace: string, lookup: map<string, string>,
    cat: H.Catalog, start: H.State)
    requires Bound(r) && r.tables != [] && IsLookup(r.norm, Items(r.query), lookup)
    requires H.CanBegin(
      cat, w, start, workspace, planHash(PayloadOf(r, PlanOf(r, lookup))), StagesOf(PhysicalPlanOf(r, lookup)))
    ensures Planned(planHash, w, r, workspace, cat, start)
  {
    forall l | IsLookup(r.norm, Items(r.query), l)
      ensures H.CanBegin(cat, w, start, workspace, planHash(PayloadOf(r, PlanOf(r, l))), StagesOf(PhysicalPlanOf(r, l)))
    {
      LookupIsUnique(r.norm, Items(r.query), l, lookup);
    }
  }

  lemma {:induction false} SplitStageIdsArePlain(r: Request, lookup: map<string, string>)
    requires WellFormed(r) && forall i | 0 <= i < |r.tables| :: PlainName(r.tables[i].alias)
    ensures forall id | id in SplitStagePlan(r, lookup).stages :: PlainName(id)
  {
    SplitStagesById(r, lookup);
    ShapeIsPlain(r, lookup, SplitStagePlan(r, lookup));
  }

  lemma {:induction false} ShapeIsPlain(r: Request, lookup: map<string, string>, p: StagePlan)
    requires Bound(r) && SplitShape(r, lookup, p) && forall i | 0 <= i < |r.tables| :: PlainName(r.tables[i].alias)
    ensures forall id | id in p.stages :: PlainName(id)
  {
    FinalStageIsPlain();
    forall id | id in p.stages ensures PlainName(id) {
      if id != FINAL_STAGE {
        var i :| 0 <= i < |r.tables| && id == ScanId(r, i);
        ScanIdIsPlain(r.tables[i].alias);
      }
    }
  }

  lemma {:induction false} SplitPlanIsBound(r: Request, lookup: map<string, string>)
    requires WellFormed(r)
    ensures M.PlanBound(SplitStagePlan(r, lookup), r.bindings)
  {
    SplitStagesById(r, lookup);
    ShapeIsBound(r, lookup, SplitStagePlan(r, lookup));
  }

  lemma {:induction false} ScanReadsItsTable(r: Request, tables: seq<TableRef>, i: nat)
    requires Bound(r) && i < |r.tables|
    ensures C.TableKeys(tables, Scan(r, i)) == [r.tables[i].tableKey]
  {
  }

  lemma {:induction false} ShapeIsBound(r: Request, lookup: map<string, string>, p: StagePlan)
    requires Bound(r) && SplitShape(r, lookup, p)
    ensures M.PlanBound(p, r.bindings)
  {
    forall i | 0 <= i < |r.tables| ensures C.TableKeys(p.tables, Scan(r, i)) == [r.tables[i].tableKey] {
      ScanReadsItsTable(r, p.tables, i);
    }
    forall id | id in p.stages && !p.stages[id].kind.LocalCompute?
      ensures forall k | k in C.TableKeys(p.tables, p.stages[id]) :: k in r.bindings
    {
      var i :| 0 <= i < |r.tables| && id == ScanId(r, i);
    }
  }

  // ----- the service itself -----

  /** The run that the service starts. */
  ghost function SettingFor(
    cat: H.Catalog, w: World, parallelism: int, workspace: string, planId: string, plan: PhysicalPlan,
    start: H.State): Setting
  {
    Setting(
      cat, w, S.Parallelism(parallelism), SchedulerPlan(plan.stages), StagesOf(plan), start, workspace, planId,
      start.ds)
  }

  lemma {:induction false} SettingCanStart(x: Setting, plan: PhysicalPlan)
    requires RunsOver(x, plan) && x.p > 0 && x.ds == x.start.ds && H.Inv(x.cat, x.w, x.start)
    requires H.CanBegin(x.cat, x.w, x.start, x.workspace, x.planId, x.stages)
    ensures CanStart(x)
  {
    SchedulerSeesTheStages(plan.stages);
  }

  class FederatedQueryService {
    const store: ArtifactStore
    const w: World
    const parallelism: int
    const planHash: PlanPayload -> string

    constructor (store: ArtifactStore, w: World, parallelism: int, planHash: PlanPayload -> string)
      ensures this.store == store && this.w == w && this.parallelism == parallelism && this.planHash == planHash
    {
      this.store, this.w, this.parallelism, this.planHash := store, w, parallelism, planHash;
    }

    /** `plan_sql`, from the parsed query on. */
    method Plan(r: Request) returns (plan: PhysicalPlan, planId: string, ghost lookup: map<string, string>)
      requires Bound(r) && r.tables != []
      requires IdsOf(r.tables) == QueryAliases(r.query) && Distinct(QueryAliases(r.query))
      ensures IsLookup(r.norm, Items(r.query), lookup)
      ensures plan == PhysicalPlanOf(r, lookup) && planId == planHash(PayloadOf(r, PlanOf(r, lookup)))
      ensures plan.resultStage in StagesOf(plan).stages
    {
      var o, order;
      o, order, lookup := Optimize(r);
      plan := Build(o, r.tables);
      planId := planHash(PayloadOf(r, o));
      ResultStageListed(o, r.tables);
    }

    /** Schedule the stages of a plan; the handle points at the artifact of the result stage. */
    method RunPlan(
      plan: PhysicalPlan, ds: DatasetState, workspace: string, planId: string, faults: Faults, ghost x: Setting)
      returns (answer: Result<Handle, QueryFailure>, ghost tr: Trace)
      requires store.contentHash == w.contentHash && store.View() == x.start.store
      requires CanStart(x) && RunsOver(x, plan) && x.p == (if parallelism < 1 then 1 else parallelism)
      requires x.w == w && x.ds == ds && workspace == x.workspace && planId == x.planId
      requires plan.resultStage in StagesOf(plan).stages
      modifies store
      ensures Reached(x, faults, tr) && tr.h.store == store.View() && RunGave(x, tr, plan, answer)
    {
      var executor := new StageExecutor(store, w, StagesOf(plan), ds);
      var scheduler := new StageScheduler(executor, parallelism);
      var summary;
      summary, tr := scheduler.Run(plan.stages, workspace, planId, faults, x);
      match summary
      case UnresolvedDependencies(ids) => answer := Err(Unresolved(ids));
      case StageFailed(id, error) => answer := Err(Failed(id, error));
      case Completed(artifacts, metrics) =>
        ReachedIsSound(x, faults, tr);
        FinishedRunHasEveryArtifact(x, tr, plan);
        answer := Ok(Handle(workspace, planId, plan.resultStage, artifacts[plan.resultStage], metrics));
    }

    /**
     * Plan the query, run its stages, return the artifact of the result stage. When the query
     * is answerable, the artifact holds the value of the query over the source tables, and the
     * call fails only when one stage was made to fail three times. Either way the store is left
     * in a state that a history can reach, ready for the next call.
     */
    method Execute(
      r: Request, workspace: string, contents: map<string, Table>, faults: Faults,
      ghost sem: Semantics, ghost cat: H.Catalog, ghost start: H.State)
      returns (answer: Result<Handle, QueryFailure>, ghost next: H.State)
      requires Bound(r) && r.tables != []
      requires IdsOf(r.tables) == QueryAliases(r.query) && Distinct(QueryAliases(r.query))
      requires store.contentHash == w.contentHash && store.View() == start.store
      requires H.Inv(cat, w, start) && start.ds == DatasetState(r.bindings, contents)
      requires Planned(planHash, w, r, workspace, cat, start)
      modifies store
      ensures H.Inv(cat, w, next) && next.store == store.View()
      ensures Answerable(sem, w, r, start.ds) ==> Delivered(sem, r, start.ds, faults, store.View(), answer)
      ensures answer.Ok? ==> IsLabelled(planHash, r, workspace, answer.value)
    {
      var plan, planId, lookup := Plan(r);
      ghost var x := SettingFor(cat, w, parallelism, workspace, planId, plan, start);
      SettingCanStart(x, plan);
      ghost var tr: Trace;
      answer, tr := RunPlan(plan, DatasetState(r.bindings, contents), workspace, planId, faults, x);
      next := tr.h;
      AnswerIsDelivered(sem, x, faults, tr, r, lookup, answer);
      HandleIsLabelled(planHash, x, faults, tr, r, lookup, answer);
    }
  }
}
