/**
 * The scheduler and the stage cache together: every interleaving of the tasks of a run, with the
 * store as it changes under them, and runs of other plans in between.
 */
module Interleaving {
  import opened Prelude
  import opened Dag
  import opened Sql
  import opened Plans
  import opened Store
  import opened Execution
  import S = Scheduler
  import H = CacheHistory
  import M = CacheMeaning

  type SchedState = S.State<Artifact>
  type SchedEvent = S.Event<Artifact>

  function ToStage(s: StageDef): S.Stage { S.Stage(s.id, s.deps, s.retryLimit) }

  /** The plan as the scheduler sees it. */
  function SchedulerPlan(stages: seq<StageDef>): (r: seq<S.Stage>)
    ensures |r| == |stages| && forall i | 0 <= i < |r| :: r[i] == ToStage(stages[i])
  {
    seq(|stages|, i requires 0 <= i < |stages| => ToStage(stages[i]))
  }

  // What stays fixed during a run: `plan` is the scheduler's view of `stages`.
  datatype Setting = Setting(
    cat: H.Catalog, w: World, p: nat, plan: seq<S.Stage>, stages: StagePlan, start: H.State,
    workspace: string, planId: string, ds: DatasetState)

  // The scheduler events and state, and the history events and state, so far.
  datatype Trace = Trace(events: seq<SchedEvent>, st: SchedState, history: seq<H.Event>, h: H.State)

  // A step of the scheduler that touches no store; one dispatch of a running task with nothing
  // happening in between; the two halves of the dispatch of a remote stage, up to the call of the
  // source and from its answer on; an event of another run, or a revision. `fault` is a failure of
  // the outside world.
  datatype Step =
    | Quiet(e: SchedEvent)
    | Attempt(id: StageId, fault: bool)
    | Ask(id: StageId)
    | Receive(id: StageId, fault: bool)
    | Elsewhere(h: H.Event)

  // ----- paths -----

  ghost predicate SameStages(x: Setting) {
    forall s | s in S.DictValues(x.plan) :: s.id in x.stages.stages && s == ToStage(x.stages.stages[s.id])
  }

  /** The run may begin, in a state that a history can reach. */
  ghost predicate CanStart(x: Setting) {
    && x.p > 0 && x.ds == x.start.ds && SameStages(x) && H.Inv(x.cat, x.w, x.start)
    && H.CanBegin(x.cat, x.w, x.start, x.workspace, x.planId, x.stages)
  }

  ghost function Begun(x: Setting): Trace {
    var e := H.Begin(x.workspace, x.planId, x.stages);
    Trace([], S.Init(x.plan), [e], H.Apply(x.cat, x.w, x.start, e))
  }

  ghost function Then(tr: Trace, e: SchedEvent, st: SchedState): Trace { tr.(events := tr.events + [e], st := st) }

  ghost function Happened(x: Setting, tr: Trace, e: H.Event): Trace {
    tr.(history := tr.history + [e], h := H.Apply(x.cat, x.w, tr.h, e))
  }

  function Dispatched(x: Setting, id: StageId, fault: bool): H.Event { H.RunStage(x.workspace, x.planId, id, fault) }

  function Received(x: Setting, id: StageId, fault: bool): H.Event { H.Land(x.workspace, x.planId, id, fault) }

  /** The stages whose sources have been asked. */
  function Asked(x: Setting, h: H.State): set<StageId>
    requires (x.workspace, x.planId) in h.runs
  {
    h.runs[(x.workspace, x.planId)].fetching.Keys
  }

  ghost predicate Running(tr: Trace, id: StageId) { id in tr.st.tasks && tr.st.tasks[id].phase.Attempting? }

  ghost predicate CanAttempt(x: Setting, tr: Trace, id: StageId) {
    Running(tr, id) && H.CanRun(x.cat, tr.h, x.workspace, x.planId, id) && id !in Asked(x, tr.h)
  }

  ghost predicate CanAsk(x: Setting, tr: Trace, id: StageId) {
    Running(tr, id) && H.CanFetch(x.cat, x.w, tr.h, x.workspace, x.planId, id)
  }

  ghost predicate CanReceive(x: Setting, tr: Trace, id: StageId) {
    Running(tr, id) && H.CanLand(x.cat, tr.h, x.workspace, x.planId, id)
  }

  /** The event ends an execution of a running task. */
  ghost predicate CanEnd(x: Setting, tr: Trace, e: H.Event) {
    && H.Ends(x.cat, tr.h, e) && e.workspace == x.workspace && e.plan == x.planId && Running(tr, e.id)
  }

  ghost function EndResult(x: Setting, tr: Trace, e: H.Event): Result<Artifact, ExecError>
    requires CanEnd(x, tr, e)
  {
    H.OutcomeOf(x.cat, x.w, tr.h, e).result
  }

  /** The task succeeds or fails as the execution did. */
  ghost function AfterEnd(x: Setting, tr: Trace, e: H.Event): Trace
    requires CanEnd(x, tr, e)
  {
    var r, t, tr' := EndResult(x, tr, e), tr.st.tasks[e.id], Happened(x, tr, e);
    if r.Ok? then Then(tr', S.Succeed(e.id, r.value), S.SetPhase(tr.st, e.id, S.Succeeded(r.value, t.phase.attempt)))
    else Then(tr', S.Fail(e.id), S.SetPhase(tr.st, e.id, S.AfterFailure(t)))
  }

  /** An event that leaves this run alone. */
  ghost predicate IsElsewhere(x: Setting, e: H.Event) {
    match e
    case Revise(ds) => M.Coherent(x.w, ds)
    case Begin(ws, pl, _) => (ws, pl) != (x.workspace, x.planId)
    case RunStage(ws, pl, _, _) => (ws, pl) != (x.workspace, x.planId)
    case Fetch(ws, pl, _) => (ws, pl) != (x.workspace, x.planId)
    case Land(ws, pl, _, _) => (ws, pl) != (x.workspace, x.planId)
    case Lose(_) => false
  }

  ghost function StepTo(x: Setting, tr: Trace, step: Step): Option<Trace>
    requires x.p > 0
  {
    match step
    case Quiet(e) =>
      var st := S.Apply(x.p, tr.st, e);
      if e.Succeed? || e.Fail? || st.None? then None else Some(Then(tr, e, st.value))
    case Attempt(id, fault) =>
      if CanAttempt(x, tr, id) then Some(AfterEnd(x, tr, Dispatched(x, id, fault))) else None
    case Ask(id) =>
      if CanAsk(x, tr, id) then Some(Happened(x, tr, H.Fetch(x.workspace, x.planId, id))) else None
    case Receive(id, fault) =>
      if CanReceive(x, tr, id) then Some(AfterEnd(x, tr, Received(x, id, fault))) else None
    case Elsewhere(e) =>
      if IsElsewhere(x, e) then Some(Happened(x, tr, e)) else None
  }

  /** The trace after these steps, or None when one of them was not possible. */
  ghost function PathTo(x: Setting, steps: seq<Step>): Option<Trace>
    decreases |steps|
  {
    if !CanStart(x) then None
    else if steps == [] then Some(Begun(x))
    else
      var before := PathTo(x, steps[..|steps| - 1]);
      if before.None? then None else StepTo(x, before.value, steps[|steps| - 1])
  }

  // ----- what every path keeps -----

  /** The artifact holds the value of the stage. */
  ghost predicate ArtifactOk(x: Setting, c: Contents, id: StageId, a: Artifact) {
    && Resolvable(Dependencies(x.stages), id)
    && KeyOf(a) in c.artifacts
    && Cold(x.w, x.stages, x.ds, id) == Some(c.artifacts[KeyOf(a)])
  }

  ghost predicate Artifacts(x: Setting, st: SchedState, c: Contents) {
    && (forall id | id in st.artifacts :: ArtifactOk(x, c, id, st.artifacts[id]))
    && (
      forall id | id in st.tasks && st.tasks[id].phase.Succeeded? :: ArtifactOk(x, c, id, st.tasks[id].phase.artifact))
  }

  ghost predicate OwnRun(x: Setting, h: H.State) {
    && x.workspace in x.cat.workspaces && x.planId in x.cat.plans && (x.workspace, x.planId) in h.runs
    && var r := h.runs[(x.workspace, x.planId)]; r.plan == x.stages && r.ds == x.ds && r.intact
  }

  ghost predicate DoneIn(st: SchedState, done: set<StageId>) {
    && st.completed <= done
    && forall id | id in st.tasks && st.tasks[id].phase.Succeeded? :: id in done
  }

  /** The scheduler's state and the store agree, and each comes from its own transition system. */
  ghost predicate Sound(x: Setting, tr: Trace) {
    && x.p > 0 && S.Exec(x.p, x.plan, tr.events) == Some(tr.st)
    && H.ReplayFrom(x.cat, x.w, x.start, tr.history) == tr.h
    && H.Inv(x.cat, x.w, tr.h) && OwnRun(x, tr.h)
    && DoneIn(tr.st, tr.h.runs[(x.workspace, x.planId)].done)
    && Artifacts(x, tr.st, tr.h.store)
  }

  lemma {:induction false} ThenIsScheduled(x: Setting, tr: Trace, e: SchedEvent, st: SchedState)
    requires x.p > 0 && S.Exec(x.p, x.plan, tr.events) == Some(tr.st) && S.Apply(x.p, tr.st, e) == Some(st)
    ensures S.Exec(x.p, x.plan, Then(tr, e, st).events) == Some(st)
  {
    assert (tr.events + [e])[..|tr.events|] == tr.events;
  }

  lemma {:induction false} HappenedIsReplayed(x: Setting, tr: Trace, e: H.Event)
    requires H.ReplayFrom(x.cat, x.w, x.start, tr.history) == tr.h
    ensures var tr' := Happened(x, tr, e); H.ReplayFrom(x.cat, x.w, x.start, tr'.history) == tr'.h
  {
    assert (tr.history + [e])[..|tr.history|] == tr.history;
  }

  lemma {:induction false} KeptArtifactsStayOk(x: Setting, st: SchedState, c: Contents, c': Contents)
    requires Artifacts(x, st, c) && H.KeepsArtifacts(c, c')
    ensures Artifacts(x, st, c')
  {
  }

  lemma {:induction false} BegunIsSound(x: Setting)
    requires CanStart(x)
    ensures Sound(x, Begun(x)) && Begun(x).h.store == x.start.store
  {
    var e := H.Begin(x.workspace, x.planId, x.stages);
    assert [e][..0] == [];
    H.StepKeepsInv(x.cat, x.w, x.start, e);
  }

  /** What a scheduler step other than a dispatch does to the results. */
  lemma {:induction false} QuietEffect(
    x: Setting, events: seq<SchedEvent>, st: SchedState, e: SchedEvent, st': SchedState)
    requires x.p > 0 && S.Exec(x.p, x.plan, events) == Some(st)
    requires !e.Succeed? && !e.Fail? && S.Apply(x.p, st, e) == Some(st')
    ensures forall id | id in st'.tasks && st'.tasks[id].phase.Succeeded? ::
      id in st.tasks && st.tasks[id] == st'.tasks[id]
    ensures e.Gather? || (st'.artifacts == st.artifacts && st'.completed == st.completed)
    ensures e.Gather? ==> (forall id | id in st.tasks :: st.tasks[id].phase.Succeeded?) && st' == S.Record(st)
  {
    if e.StartBatch? { S.StartTasksStartsAll<Artifact>(st.queue[0]); }
  }

  lemma {:induction false} RecordedArtifacts(x: Setting, st: SchedState, c: Contents, done: set<StageId>)
    requires forall id | id in st.tasks :: st.tasks[id].phase.Succeeded?
    requires Artifacts(x, st, c) && DoneIn(st, done)
    ensures Artifacts(x, S.Record(st), c) && DoneIn(S.Record(st), done)
  {
  }

  lemma {:induction false} QuietStepIsSound(x: Setting, tr: Trace, e: SchedEvent, st: SchedState)
    requires Sound(x, tr) && !e.Succeed? && !e.Fail? && S.Apply(x.p, tr.st, e) == Some(st)
    ensures Sound(x, Then(tr, e, st))
  {
    ThenIsScheduled(x, tr, e, st);
    QuietEffect(x, tr.events, tr.st, e, st);
    if e.Gather? { RecordedArtifacts(x, tr.st, tr.h.store, tr.h.runs[(x.workspace, x.planId)].done); }
  }

  lemma {:induction false} RunPlanStages(x: Setting, h: H.State)
    requires H.Inv(x.cat, x.w, h) && OwnRun(x, h)
    ensures Alike(x.w, x.stages, x.cat.plans[x.planId]) && x.stages.stages.Keys == x.cat.plans[x.planId].stages.Keys
    ensures forall id | id in x.stages.stages :: x.stages.stages[id].deps == x.cat.plans[x.planId].stages[id].deps
    ensures M.Built(x.cat.plans[x.planId])
  {
    assert H.RunOk(x.w, x.cat.plans[x.planId], h.store, x.workspace, x.planId, h.runs[(x.workspace, x.planId)]);
    forall id | id in x.stages.stages ensures x.stages.stages[id].deps == x.cat.plans[x.planId].stages[id].deps {
      assert AlikeStages(x.w, x.stages.stages[id], x.cat.plans[x.planId].stages[id]);
    }
  }

  lemma {:induction false} TaskStage(x: Setting, tr: Trace, id: StageId)
    requires x.p > 0 && S.Exec(x.p, x.plan, tr.events) == Some(tr.st) && SameStages(x) && id in tr.st.tasks
    ensures id in x.stages.stages && tr.st.tasks[id].stage == ToStage(x.stages.stages[id])
    ensures tr.st.tasks[id].stage.id == id
    ensures tr.st.tasks[id].stage in S.DictValues(x.plan)
    ensures forall d | d in x.stages.stages[id].deps :: d in tr.st.completed
  {
    S.ReachableInv(x.p, x.plan, tr.events);
    S.TasksNotCompleted(x.p, S.DictValues(x.plan), tr.st);
    var s := tr.st.tasks[id].stage;
    assert s in S.InFlight(tr.st) && s.id == id && S.IsReady(s, tr.st.completed);
  }

  /**
   * A running task is never blocked: its dependencies are done in the history too, so it can be
   * dispatched, or its source has been asked and may answer.
   */
  lemma {:induction false} RunningTaskCanAttempt(x: Setting, tr: Trace, id: StageId)
    requires Sound(x, tr) && SameStages(x) && Running(tr, id)
    ensures if id in Asked(x, tr.h) then CanReceive(x, tr, id) else CanAttempt(x, tr, id)
  {
    TaskStage(x, tr, id);
    RunPlanStages(x, tr.h);
  }

  lemma {:induction false} EndHappens(x: Setting, tr: Trace, e: H.Event)
    requires H.Inv(x.cat, x.w, tr.h) && OwnRun(x, tr.h) && CanEnd(x, tr, e)
    ensures var tr' := Happened(x, tr, e);
      && H.Inv(x.cat, x.w, tr'.h) && OwnRun(x, tr'.h) && H.KeepsArtifacts(tr.h.store, tr'.h.store)
      && tr'.h.store == H.OutcomeOf(x.cat, x.w, tr.h, e).store
      && tr'.h.runs[(x.workspace, x.planId)].done == tr.h.runs[(x.workspace, x.planId)].done +
           if EndResult(x, tr, e).Ok? then {e.id} else {}
  {
    H.EndKeepsArtifacts(x.cat, x.w, tr.h, e);
    H.EndKeepsInv(x.cat, x.w, tr.h, e);
  }

  lemma {:induction false} SuccessIsOk(x: Setting, tr: Trace, e: H.Event)
    requires H.Inv(x.cat, x.w, tr.h) && OwnRun(x, tr.h) && CanEnd(x, tr, e)
    ensures var o := H.OutcomeOf(x.cat, x.w, tr.h, e);
      o.result.Ok? ==> ArtifactOk(x, o.store, e.id, o.result.value)
  {
    H.OutcomeIsGood(x.cat, x.w, tr.h, e);
    H.GoodOutcomeHoldsCold(
      x.cat, x.w, tr.h, x.workspace, x.planId, e.id, H.OutcomeOf(x.cat, x.w, tr.h, e));
  }

  lemma {:induction false} AttemptedArtifacts(
    x: Setting, st: SchedState, c: Contents, done: set<StageId>, id: StageId, ph: S.Phase<Artifact>)
    requires Artifacts(x, st, c) && DoneIn(st, done) && id in st.tasks
    requires ph.Succeeded? ==> ArtifactOk(x, c, id, ph.artifact) && id in done
    ensures Artifacts(x, S.SetPhase(st, id, ph), c) && DoneIn(S.SetPhase(st, id, ph), done)
  {
  }

  /** The history's half of the end of a dispatch. */
  lemma {:induction false} HappenedIsSound(x: Setting, tr: Trace, e: H.Event)
    requires Sound(x, tr) && CanEnd(x, tr, e)
    ensures var r, tr' := EndResult(x, tr, e), Happened(x, tr, e);
      && Sound(x, tr')
      && (r.Ok? ==> ArtifactOk(x, tr'.h.store, e.id, r.value) && e.id in tr'.h.runs[(x.workspace, x.planId)].done)
  {
    EndHappens(x, tr, e);
    HappenedIsReplayed(x, tr, e);
    SuccessIsOk(x, tr, e);
    KeptArtifactsStayOk(x, tr.st, tr.h.store, Happened(x, tr, e).h.store);
  }

  /** The scheduler's half of it. */
  lemma {:induction false} PhaseIsSound(x: Setting, tr: Trace, id: StageId, e: SchedEvent, ph: S.Phase<Artifact>)
    requires Sound(x, tr) && id in tr.st.tasks && S.Apply(x.p, tr.st, e) == Some(S.SetPhase(tr.st, id, ph))
    requires ph.Succeeded? ==>
      ArtifactOk(x, tr.h.store, id, ph.artifact) && id in tr.h.runs[(x.workspace, x.planId)].done
    ensures Sound(x, Then(tr, e, S.SetPhase(tr.st, id, ph)))
  {
    ThenIsScheduled(x, tr, e, S.SetPhase(tr.st, id, ph));
    AttemptedArtifacts(x, tr.st, tr.h.store, tr.h.runs[(x.workspace, x.planId)].done, id, ph);
  }

  lemma {:induction false} EndIsSound(x: Setting, tr: Trace, e: H.Event)
    requires Sound(x, tr) && CanEnd(x, tr, e)
    ensures Sound(x, AfterEnd(x, tr, e))
  {
    var r, tr' := EndResult(x, tr, e), Happened(x, tr, e);
    HappenedIsSound(x, tr, e);
    if r.Ok? {
      SuccessPhaseIsSound(x, tr', e.id, r.value);
    } else {
      FailurePhaseIsSound(x, tr', e.id);
    }
  }

  lemma {:induction false} FailurePhaseIsSound(x: Setting, tr: Trace, id: StageId)
    requires Sound(x, tr) && Running(tr, id)
    ensures Sound(x, Then(tr, S.Fail(id), S.SetPhase(tr.st, id, S.AfterFailure(tr.st.tasks[id]))))
  {
    PhaseIsSound(x, tr, id, S.Fail(id), S.AfterFailure(tr.st.tasks[id]));
  }

  lemma {:induction false} SuccessPhaseIsSound(x: Setting, tr: Trace, id: StageId, a: Artifact)
    requires Sound(x, tr) && Running(tr, id)
    requires ArtifactOk(x, tr.h.store, id, a) && id in tr.h.runs[(x.workspace, x.planId)].done
    ensures var ph := S.Succeeded(a, tr.st.tasks[id].phase.attempt);
      Sound(x, Then(tr, S.Succeed(id, a), S.SetPhase(tr.st, id, ph)))
  {
    PhaseIsSound(x, tr, id, S.Succeed(id, a), S.Succeeded(a, tr.st.tasks[id].phase.attempt));
  }

  /** Asking a source touches neither the store nor what is done. */
  lemma {:induction false} AskIsSound(x: Setting, tr: Trace, id: StageId)
    requires Sound(x, tr) && CanAsk(x, tr, id)
    ensures Sound(x, Happened(x, tr, H.Fetch(x.workspace, x.planId, id)))
  {
    AskHappens(x, tr, id);
    HappenedIsReplayed(x, tr, H.Fetch(x.workspace, x.planId, id));
  }

  lemma {:induction false} AskHappens(x: Setting, tr: Trace, id: StageId)
    requires H.Inv(x.cat, x.w, tr.h) && OwnRun(x, tr.h) && CanAsk(x, tr, id)
    ensures var h' := Happened(x, tr, H.Fetch(x.workspace, x.planId, id)).h;
      && H.Inv(x.cat, x.w, h') && OwnRun(x, h') && h'.store == tr.h.store
      && h'.runs[(x.workspace, x.planId)].done == tr.h.runs[(x.workspace, x.planId)].done
  {
    H.FetchLeaves(x.cat, x.w, tr.h, x.workspace, x.planId, id);
    H.FetchKeepsInv(x.cat, x.w, tr.h, x.workspace, x.planId, id);
  }

  lemma {:induction false} OtherEndHappens(x: Setting, h: H.State, e: H.Event)
    requires H.Inv(x.cat, x.w, h) && H.Ends(x.cat, h, e) && (x.workspace, x.planId) in h.runs
    requires (e.workspace, e.plan) != (x.workspace, x.planId)
    ensures var h' := H.Apply(x.cat, x.w, h, e);
      && H.KeepsArtifacts(h.store, h'.store) && (x.workspace, x.planId) in h'.runs
      && h'.runs[(x.workspace, x.planId)] == h.runs[(x.workspace, x.planId)]
  {
    H.EndKeepsArtifacts(x.cat, x.w, h, e);
  }

  lemma {:induction false} ElsewhereHappens(x: Setting, h: H.State, e: H.Event)
    requires H.Inv(x.cat, x.w, h) && OwnRun(x, h) && IsElsewhere(x, e)
    ensures var h' := H.Apply(x.cat, x.w, h, e);
      && H.Inv(x.cat, x.w, h') && OwnRun(x, h') && H.KeepsArtifacts(h.store, h'.store)
      && h'.runs[(x.workspace, x.planId)] == h.runs[(x.workspace, x.planId)]
  {
    H.StepKeepsInv(x.cat, x.w, h, e);
    if H.Ends(x.cat, h, e) { OtherEndHappens(x, h, e); } else { OtherStepHappens(x, h, e); }
  }

  lemma {:induction false} OtherStepHappens(x: Setting, h: H.State, e: H.Event)
    requires (x.workspace, x.planId) in h.runs && IsElsewhere(x, e) && !H.Ends(x.cat, h, e)
    ensures var h' := H.Apply(x.cat, x.w, h, e);
      && h'.store == h.store && (x.workspace, x.planId) in h'.runs
      && h'.runs[(x.workspace, x.planId)] == h.runs[(x.workspace, x.planId)]
  {
  }

  lemma {:induction false} ElsewhereIsSound(x: Setting, tr: Trace, e: H.Event)
    requires Sound(x, tr) && IsElsewhere(x, e)
    ensures Sound(x, Happened(x, tr, e))
  {
    ElsewhereHappens(x, tr.h, e);
    HappenedIsReplayed(x, tr, e);
    KeptArtifactsStayOk(x, tr.st, tr.h.store, Happened(x, tr, e).h.store);
  }

  lemma {:induction false} StepIsSound(x: Setting, tr: Trace, step: Step)
    requires Sound(x, tr) && StepTo(x, tr, step).Some?
    ensures Sound(x, StepTo(x, tr, step).value)
  {
    match step
    case Quiet(e) => QuietStepIsSound(x, tr, e, S.Apply(x.p, tr.st, e).value);
    case Attempt(id, fault) => EndIsSound(x, tr, Dispatched(x, id, fault));
    case Ask(id) => AskIsSound(x, tr, id);
    case Receive(id, fault) => EndIsSound(x, tr, Received(x, id, fault));
    case Elsewhere(e) => ElsewhereIsSound(x, tr, e);
  }

  /**
   * Along every path, whatever happens between asking a source and its answer, whatever the order of
   * completions, and whatever happens elsewhere, the
   * scheduler's run is a run of its transition system, the store's history is one of its own, and
   * every artifact recorded so far holds the value of its stage.
   */
  lemma {:induction false} PathIsSound(x: Setting, steps: seq<Step>)
    requires PathTo(x, steps).Some?
    ensures CanStart(x) && Sound(x, PathTo(x, steps).value)
    decreases |steps|
  {
    if steps == [] {
      BegunIsSound(x);
    } else {
      PathIsSound(x, steps[..|steps| - 1]);
      StepIsSound(x, PathTo(x, steps[..|steps| - 1]).value, steps[|steps| - 1]);
    }
  }

  // ----- who is to blame for a failure -----

  /** The stage has a value. */
  ghost predicate HasValue(x: Setting, id: StageId) {
    Resolvable(Dependencies(x.stages), id) && Cold(x.w, x.stages, x.ds, id).Some?
  }

  /** The step ends a dispatch of the stage. */
  predicate IsTry(step: Step, id: StageId) { (step.Attempt? || step.Receive?) && step.id == id }

  function Tries(steps: seq<Step>, id: StageId): nat {
    if steps == [] then 0
    else Tries(steps[..|steps| - 1], id) + if IsTry(steps[|steps| - 1], id) then 1 else 0
  }

  function FaultedTries(steps: seq<Step>, id: StageId): nat {
    if steps == [] then 0
    else
      var last := steps[|steps| - 1];
      FaultedTries(steps[..|steps| - 1], id) + if IsTry(last, id) && last.fault then 1 else 0
  }

  lemma {:induction false} FaultedTriesAreTries(steps: seq<Step>, id: StageId)
    ensures FaultedTries(steps, id) <= Tries(steps, id)
  {
    if steps != [] { FaultedTriesAreTries(steps[..|steps| - 1], id); }
  }

  lemma {:induction false} DependenciesReadable(x: Setting, h: H.State, id: StageId)
    requires H.Inv(x.cat, x.w, h) && OwnRun(x, h) && H.CanRun(x.cat, h, x.workspace, x.planId, id)
    ensures forall d | d in x.cat.plans[x.planId].stages[id].deps ::
      ReadOutput(h.store, ManifestPath(x.workspace, x.planId, d)).Some?
  {
    var p, r := x.cat.plans[x.planId], h.runs[(x.workspace, x.planId)];
    assert H.RunOk(x.w, p, h.store, x.workspace, x.planId, r);
    forall d | d in p.stages[id].deps ensures ReadOutput(h.store, ManifestPath(x.workspace, x.planId, d)).Some? {
      assert H.IntactOk(x.w, p, x.ds, h.store, x.workspace, x.planId, d);
    }
  }

  lemma {:induction false} ValueInCatalog(x: Setting, h: H.State, id: StageId)
    requires H.Inv(x.cat, x.w, h) && OwnRun(x, h) && HasValue(x, id)
    ensures var q := x.cat.plans[x.planId]; Resolvable(Dependencies(q), id) && Cold(x.w, q, x.ds, id).Some?
  {
    var q := x.cat.plans[x.planId];
    assert H.RunOk(x.w, q, h.store, x.workspace, x.planId, h.runs[(x.workspace, x.planId)]);
    H.BoundHasContents(x.w, q, x.ds);
    AlikeDependencies(x.w, x.stages, q);
    AlikeCold(x.w, x.stages, q, x.ds, id);
  }

  /** A stage that has a value fails only when the outside world does. */
  lemma {:induction false} UnfaultedAttemptSucceeds(x: Setting, tr: Trace, e: H.Event)
    requires H.Inv(x.cat, x.w, tr.h) && OwnRun(x, tr.h) && CanEnd(x, tr, e) && HasValue(x, e.id) && !e.fault
    ensures EndResult(x, tr, e).Ok?
  {
    H.EnabledIsRunnable(x.cat, x.w, tr.h, x.workspace, x.planId, e.id);
    DependenciesReadable(x, tr.h, e.id);
    ValueInCatalog(x, tr.h, e.id);
    M.UnfaultedExecutionSucceeds(x.w, x.cat.plans[x.planId], x.ds, tr.h.store, x.workspace, x.planId, e.id);
    if e.RunStage? {
      H.OutcomeIsTheCatalogs(x.cat, x.w, tr.h, x.workspace, x.planId, e.id, false);
    } else {
      H.LandingIsTheCatalogs(x.cat, x.w, tr.h, x.workspace, x.planId, e.id, false);
    }
  }

  ghost function Failures(events: seq<SchedEvent>, id: StageId): int {
    S.Dispatches(events, id) - S.Successes(events, id)
  }

  lemma {:induction false} OneMoreEvent(events: seq<SchedEvent>, e: SchedEvent, id: StageId)
    ensures S.Dispatches(events + [e], id) ==
      S.Dispatches(events, id) + if (e.Succeed? || e.Fail?) && e.id == id then 1 else 0
    ensures Failures(events + [e], id) == Failures(events, id) + if e.Fail? && e.id == id then 1 else 0
  {
    assert (events + [e])[..|events|] == events;
  }

  /** One more end of a dispatch is one more try, and an unfaulted one does not fail. */
  lemma {:induction false} EndCounts(x: Setting, tr: Trace, e: H.Event, id: StageId)
    requires Sound(x, tr) && CanEnd(x, tr, e)
    ensures var events := AfterEnd(x, tr, e).events;
      && S.Dispatches(events, id) == S.Dispatches(tr.events, id) + (if e.id == id then 1 else 0)
      && (HasValue(x, id) ==>
           Failures(events, id) <= Failures(tr.events, id) + if e.id == id && e.fault then 1 else 0)
  {
    var r := EndResult(x, tr, e);
    OneMoreEvent(tr.events, if r.Ok? then S.Succeed(e.id, r.value) else S.Fail(e.id), id);
    if HasValue(x, id) && e.id == id && !e.fault { UnfaultedAttemptSucceeds(x, tr, e); }
  }

  /** The tries of a stage on a path are its dispatches, and its failures were faults. */
  lemma {:induction false} PathCounts(x: Setting, steps: seq<Step>, id: StageId)
    requires PathTo(x, steps).Some?
    ensures Tries(steps, id) == S.Dispatches(PathTo(x, steps).value.events, id)
    ensures HasValue(x, id) ==> Failures(PathTo(x, steps).value.events, id) <= FaultedTries(steps, id)
    decreases |steps|
  {
    if steps != [] {
      var init, last := steps[..|steps| - 1], steps[|steps| - 1];
      PathCounts(x, init, id);
      PathIsSound(x, init);
      StepCounts(x, PathTo(x, init).value, last, id);
    }
  }

  lemma {:induction false} StepCounts(x: Setting, tr: Trace, step: Step, id: StageId)
    requires Sound(x, tr) && StepTo(x, tr, step).Some?
    ensures var events := StepTo(x, tr, step).value.events;
      && S.Dispatches(events, id) == S.Dispatches(tr.events, id) + (if IsTry(step, id) then 1 else 0)
      && (HasValue(x, id) ==>
           Failures(events, id) <= Failures(tr.events, id) + if IsTry(step, id) && step.fault then 1 else 0)
  {
    match step
    case Quiet(e) => QuietCounts(x, tr, e, id);
    case Attempt(k, fault) => EndCounts(x, tr, Dispatched(x, k, fault), id);
    case Ask(_) => NoEventCounts(x, tr, step, id);
    case Receive(k, fault) => EndCounts(x, tr, Received(x, k, fault), id);
    case Elsewhere(_) => NoEventCounts(x, tr, step, id);
  }

  lemma {:induction false} QuietCounts(x: Setting, tr: Trace, e: SchedEvent, id: StageId)
    requires x.p > 0 && StepTo(x, tr, Quiet(e)).Some?
    ensures var events := StepTo(x, tr, Quiet(e)).value.events;
      S.Dispatches(events, id) == S.Dispatches(tr.events, id) && Failures(events, id) == Failures(tr.events, id)
  {
    OneMoreEvent(tr.events, e, id);
  }

  lemma {:induction false} NoEventCounts(x: Setting, tr: Trace, step: Step, id: StageId)
    requires x.p > 0 && (step.Ask? || step.Elsewhere?) && StepTo(x, tr, step).Some?
    ensures StepTo(x, tr, step).value.events == tr.events
  {
  }

  /** A run that fails was made to fail: every attempt that the stage may make was made, and faulted. */
  lemma {:induction false} FailureIsFaulted(x: Setting, steps: seq<Step>)
    requires PathTo(x, steps).Some? && PathTo(x, steps).value.st.status.Failed?
    ensures var id := PathTo(x, steps).value.st.status.id;
      && id in x.stages.stages
      && (
        HasValue(x, id) ==>
          Tries(steps, id) == FaultedTries(steps, id) ==
            var limit := x.stages.stages[id].retryLimit; if limit < 0 then 1 else limit + 1)
  {
    var tr := PathTo(x, steps).value;
    var id := tr.st.status.id;
    PathIsSound(x, steps);
    S.ReachableInv(x.p, x.plan, tr.events);
    TaskStage(x, tr, id);
    PathCounts(x, steps, id);
    FaultedTriesAreTries(steps, id);
  }

  // ----- paths under a given pattern of faults -----

  /** Which attempts the outside world makes fail is given in advance. */
  ghost predicate Obeys(faults: set<(StageId, nat)>, steps: seq<Step>) {
    forall k | 0 <= k < |steps| && (steps[k].Attempt? || steps[k].Receive?) ::
      steps[k].fault <==> (steps[k].id, Tries(steps[..k], steps[k].id) + 1) in faults
  }

  lemma {:induction false} ObeysOneMore(faults: set<(StageId, nat)>, steps: seq<Step>, last: Step)
    requires Obeys(faults, steps)
    requires last.Attempt? || last.Receive? ==> (last.fault <==> (last.id, Tries(steps, last.id) + 1) in faults)
    ensures Obeys(faults, steps + [last])
  {
    var more := steps + [last];
    assert more[..|steps|] == steps;
    forall k | 0 <= k < |steps| ensures more[..k] == steps[..k] {}
  }

  lemma {:induction false} AllTriesFaulted(faults: set<(StageId, nat)>, steps: seq<Step>, id: StageId, k: nat)
    requires Obeys(faults, steps) && FaultedTries(steps, id) == Tries(steps, id) && 1 <= k <= Tries(steps, id)
    ensures (id, k) in faults
    decreases |steps|
  {
    var init, last := steps[..|steps| - 1], steps[|steps| - 1];
    FaultedTriesAreTries(init, id);
    forall i | 0 <= i < |init| ensures init[..i] == steps[..i] {}
    if IsTry(last, id) && k == Tries(steps, id) {
      assert steps[..|steps| - 1] == init;
    } else {
      AllTriesFaulted(faults, init, id, k);
    }
  }

  // Proofs look at the path that leads to a trace only where this is mentioned.
  predicate Inspected(tr: Trace) { true }

  /** The trace lies on a path with these faults. */
  ghost predicate OnPath(x: Setting, faults: set<(StageId, nat)>, tr: Trace) {
    forall t: Trace {:trigger Inspected(t)} | t == tr && Inspected(t) ::
      exists steps :: PathTo(x, steps) == Some(t) && Obeys(faults, steps)
  }

  /** And no source is being asked. */
  ghost predicate Reached(x: Setting, faults: set<(StageId, nat)>, tr: Trace) {
    OnPath(x, faults, tr) && (x.workspace, x.planId) in tr.h.runs && Asked(x, tr.h) == {}
  }

  lemma {:induction false} ReachedIsSound(x: Setting, faults: set<(StageId, nat)>, tr: Trace)
    requires Reached(x, faults, tr)
    ensures CanStart(x) && Sound(x, tr)
  {
    assert Inspected(tr);
    var steps :| PathTo(x, steps) == Some(tr) && Obeys(faults, steps);
    PathIsSound(x, steps);
  }

  lemma {:induction false} ReachedKeepsInv(x: Setting, faults: set<(StageId, nat)>, tr: Trace)
    requires Reached(x, faults, tr)
    ensures H.Inv(x.cat, x.w, tr.h)
  {
    ReachedIsSound(x, faults, tr);
  }

  lemma {:induction false} BegunIsReached(x: Setting, faults: set<(StageId, nat)>)
    requires CanStart(x)
    ensures Reached(x, faults, Begun(x)) && Begun(x).h.store == x.start.store
  {
    assert PathTo(x, []) == Some(Begun(x)) && Obeys(faults, []);
  }

  lemma {:induction false} LongerPath(x: Setting, steps: seq<Step>, tr: Trace, step: Step)
    requires x.p > 0 && PathTo(x, steps) == Some(tr)
    ensures PathTo(x, steps + [step]) == StepTo(x, tr, step)
  {
    assert (steps + [step])[..|steps|] == steps;
  }

  lemma {:induction false} QuietReached(
    x: Setting, faults: set<(StageId, nat)>, tr: Trace, e: SchedEvent, st: SchedState)
    requires Reached(x, faults, tr) && x.p > 0 && !e.Succeed? && !e.Fail? && S.Apply(x.p, tr.st, e) == Some(st)
    ensures Reached(x, faults, Then(tr, e, st))
  {
    assert Inspected(tr);
    var steps :| PathTo(x, steps) == Some(tr) && Obeys(faults, steps);
    LongerPath(x, steps, tr, Quiet(e));
    ObeysOneMore(faults, steps, Quiet(e));
  }

  lemma {:induction false} AttemptNumber(x: Setting, steps: seq<Step>, tr: Trace, id: StageId)
    requires PathTo(x, steps) == Some(tr) && Running(tr, id)
    ensures tr.st.tasks[id].phase.attempt == Tries(steps, id) + 1
  {
    PathIsSound(x, steps);
    PathCounts(x, steps, id);
    S.ReachableInv(x.p, x.plan, tr.events);
  }

  ghost function AfterAttempt(x: Setting, tr: Trace, id: StageId, fault: bool): Trace
    requires CanAttempt(x, tr, id)
  {
    AfterEnd(x, tr, Dispatched(x, id, fault))
  }

  lemma {:induction false} AttemptReached(x: Setting, faults: set<(StageId, nat)>, tr: Trace, id: StageId, fault: bool)
    requires Reached(x, faults, tr) && Running(tr, id)
    requires fault <==> (id, tr.st.tasks[id].phase.attempt) in faults
    ensures CanAttempt(x, tr, id) && Reached(x, faults, AfterAttempt(x, tr, id, fault))
  {
    assert Inspected(tr);
    var steps :| PathTo(x, steps) == Some(tr) && Obeys(faults, steps);
    RunningTaskOnPath(x, steps, tr, id);
    AttemptObeys(x, faults, steps, tr, id, fault);
    AttemptOnPath(x, steps, tr, id, fault);
    AttemptAsksNothing(x, tr, id, fault);
  }

  lemma {:induction false} AttemptObeys(
    x: Setting, faults: set<(StageId, nat)>, steps: seq<Step>, tr: Trace, id: StageId, fault: bool)
    requires PathTo(x, steps) == Some(tr) && Obeys(faults, steps) && Running(tr, id)
    requires fault <==> (id, tr.st.tasks[id].phase.attempt) in faults
    ensures Obeys(faults, steps + [Attempt(id, fault)])
  {
    AttemptNumber(x, steps, tr, id);
    ObeysOneMore(faults, steps, Attempt(id, fault));
  }

  lemma {:induction false} AttemptOnPath(x: Setting, steps: seq<Step>, tr: Trace, id: StageId, fault: bool)
    requires PathTo(x, steps) == Some(tr) && CanAttempt(x, tr, id) && x.p > 0
    ensures PathTo(x, steps + [Attempt(id, fault)]) == Some(AfterAttempt(x, tr, id, fault))
  {
    LongerPath(x, steps, tr, Attempt(id, fault));
  }

  lemma {:induction false} RunningTaskOnPath(x: Setting, steps: seq<Step>, tr: Trace, id: StageId)
    requires PathTo(x, steps) == Some(tr) && Running(tr, id)
    requires (x.workspace, x.planId) in tr.h.runs && Asked(x, tr.h) == {}
    ensures CanAttempt(x, tr, id) && x.p > 0
  {
    PathIsSound(x, steps);
    RunningTaskCanAttempt(x, tr, id);
  }

  lemma {:induction false} AttemptAsksNothing(x: Setting, tr: Trace, id: StageId, fault: bool)
    requires CanAttempt(x, tr, id) && Asked(x, tr.h) == {}
    ensures var h := AfterAttempt(x, tr, id, fault).h; (x.workspace, x.planId) in h.runs && Asked(x, h) == {}
  {
  }

  /** A failed run with given faults: all attempts of one stage are among them, if the stage has a value. */
  lemma {:induction false} ReachedFailure(x: Setting, faults: set<(StageId, nat)>, tr: Trace)
    requires Reached(x, faults, tr) && tr.st.status.Failed?
    ensures var id := tr.st.status.id;
      && id in x.stages.stages
      && (HasValue(x, id) ==> forall k | 1 <= k <= S.MaxAttempts(ToStage(x.stages.stages[id])) :: (id, k) in faults)
  {
    assert Inspected(tr);
    var steps :| PathTo(x, steps) == Some(tr) && Obeys(faults, steps);
    var id := tr.st.status.id;
    FailureIsFaulted(x, steps);
    if HasValue(x, id) {
      forall k | 1 <= k <= S.MaxAttempts(ToStage(x.stages.stages[id])) ensures (id, k) in faults {
        AllTriesFaulted(faults, steps, id, k);
      }
    }
  }
}
