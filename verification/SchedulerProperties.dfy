/** What the scheduler guarantees over every run, whatever the interleaving of its tasks. */
module SchedulerProperties {
  import opened Prelude
  import opened Dag
  import opened Scheduler

  // ----- safety -----

  lemma {:induction false} FewerIdsThanStages(b: seq<Stage>)
    ensures |Ids(b)| <= |b|
  {
    if b != [] {
      FewerIdsThanStages(b[1..]);
      assert b == [b[0]] + b[1..];
      assert Ids(b) == {b[0].id} + Ids(b[1..]);
    }
  }

  /**
   * In every reachable state a task's dependencies are completed, at most `p` tasks exist, the
   * attempt a task is in is within its retry budget, no stage is dispatched more often than that, and
   * every completed stage is recorded once, with the number of dispatches it really took.
   */
  lemma {:induction false} SafeInEveryReachableState<A>(p: nat, plan: seq<Stage>, events: seq<Event<A>>)
    requires p > 0 && Exec(p, plan, events).Some?
    ensures var s := Exec(p, plan, events).value;
      && (forall id | id in s.tasks :: forall d | d in s.tasks[id].stage.deps :: d in s.completed)
      && |s.tasks| <= p
      && (forall id | id in s.tasks :: 1 <= s.tasks[id].phase.attempt <= MaxAttempts(s.tasks[id].stage))
      && (forall st | st in DictValues(plan) :: Dispatches(events, st.id) <= MaxAttempts(st))
      && s.completed == s.metrics.Keys == s.artifacts.Keys
      && (forall id | id in s.completed :: Successes(events, id) == 1 && s.metrics[id] == Dispatches(events, id))
  {
    var s, d := Exec(p, plan, events).value, DictValues(plan);
    ReachableInv(p, plan, events);
    FewRunReady(p, d, s);
    DispatchesWithinBudget(p, d, events, s);
  }

  lemma {:induction false} FewRunReady<A>(p: nat, d: seq<Stage>, s: State<A>)
    requires Shape(p, d, s)
    ensures forall id | id in s.tasks :: forall dep | dep in s.tasks[id].stage.deps :: dep in s.completed
    ensures |s.tasks| <= p
  {
    TasksNotCompleted(p, d, s);
    TaskIds(p, d, s);
    FewerIdsThanStages(s.batch);
    assert |s.tasks| == |s.tasks.Keys|;
  }

  lemma {:induction false} DispatchesWithinBudget<A>(p: nat, d: seq<Stage>, events: seq<Event<A>>, s: State<A>)
    requires Shape(p, d, s) && DistinctIds(d) && Counts(events, s) && WithinBudget(d, s)
    ensures forall st | st in d :: Dispatches(events, st.id) <= MaxAttempts(st)
    ensures forall id | id in s.completed :: Successes(events, id) == 1 && s.metrics[id] == Dispatches(events, id)
  {
    TasksNotCompleted(p, d, s);
    forall st | st in d ensures Dispatches(events, st.id) <= MaxAttempts(st) {
      if st.id in s.tasks {
        assert s.tasks[st.id].stage == st;
      }
    }
  }

  ghost predicate Returned<A>(events: seq<Event<A>>, s: State<A>) {
    && (forall id | id in s.artifacts :: Succeed(id, s.artifacts[id]) in events)
    && (forall id | id in s.tasks && s.tasks[id].phase.Succeeded? :: Succeed(id, s.tasks[id].phase.artifact) in events)
  }

  /** The artifact recorded for a completed stage is one its own dispatch returned. */
  lemma {:induction false} RecordedArtifactsWereReturned<A>(p: nat, plan: seq<Stage>, events: seq<Event<A>>)
    requires p > 0 && Exec(p, plan, events).Some?
    ensures Returned(events, Exec(p, plan, events).value)
    decreases |events|
  {
    if events != [] {
      var init, e := events[..|events| - 1], events[|events| - 1];
      LastStep(p, plan, events);
      RecordedArtifactsWereReturned(p, plan, init);
      StepKeepsReturned(p, init, Exec(p, plan, init).value, e, Exec(p, plan, events).value);
    }
  }

  lemma {:induction false} StepKeepsReturned<A>(p: nat, events: seq<Event<A>>, s: State<A>, e: Event<A>, s': State<A>)
    requires p > 0 && Returned(events, s) && Apply(p, s, e) == Some(s')
    ensures Returned(events + [e], s')
  {
    if e.Succeed? || e.Fail? || e.Wake? {
      TaskStepEffect(p, s, e, s');
    } else if e.StartBatch? {
      StartTasksStartsAll<A>(s.queue[0]);
    }
  }

  // ----- unresolved dependencies -----

  lemma {:induction false} IdListMembers(stages: seq<Stage>)
    ensures forall id :: id in IdList(stages) <==> id in Ids(stages)
    ensures DistinctIds(stages) ==> forall i, j | 0 <= i < j < |stages| :: IdList(stages)[i] != IdList(stages)[j]
  {
  }

  /** With nothing ready, what has completed is everything that can ever be resolved. */
  lemma {:induction false} NothingReadyIsFixpoint<A>(p: nat, d: seq<Stage>, g: Graph, s: State<A>, w: nat)
    requires Fits(d, g) && Shape(p, d, s) && Ready(s.remaining, s.completed) == []
    requires s.completed == Level(g, w)
    ensures forall id | id in g :: id in s.completed <==> Resolvable(g, id)
  {
    WithoutMembers(d, s.completed);
    ReadyMembers(s.remaining, s.completed);
    assert Closed(g, s.completed) by {
      forall id | id in g && (forall x | x in g[id] :: x in s.completed) ensures id in s.completed {
        var st :| st in d && st.id == id;
        assert st !in Ready(s.remaining, s.completed);
      }
    }
    ResolvableIsLeastFixedPoint(g, s.completed);
  }

  lemma {:induction false} WaveStart<A>(p: nat, plan: seq<Stage>, events: seq<Event<A>>)
    requires p > 0 && Exec(p, plan, events).Some?
    requires InFlight(Exec(p, plan, events).value) == [] || Exec(p, plan, events).value.status.Finished?
    ensures Exec(p, plan, events).value.completed == Level(PlanGraph(plan), Waves(events))
  {
    ReachableInv(p, plan, events);
    assert Ids(InFlight(Exec(p, plan, events).value)) == {};
  }

  /**
   * The scheduler reports unresolved dependencies with exactly the stages that reach a
   * dependency cycle or an undeclared stage id, sorted and without repetition.
   */
  lemma {:induction false} UnresolvedReportIsExact<A>(p: nat, plan: seq<Stage>, events: seq<Event<A>>)
    requires p > 0 && Exec(p, plan, events).Some? && Exec(p, plan, events).value.status.Unresolved?
    ensures var ids := Exec(p, plan, events).value.status.ids;
      && ids != [] && Sorted(ids)
      && (forall id :: id in ids <==> id in PlanGraph(plan) && Doomed(PlanGraph(plan), id))
      && (forall id :: id in ids ==> multiset(ids)[id] == 1)
  {
    var s, d, g := Exec(p, plan, events).value, DictValues(plan), PlanGraph(plan);
    ReachableInv(p, plan, events);
    WaveStart(p, plan, events);
    NothingReadyIsFixpoint(p, d, g, s, Waves(events));
    var list := IdList(s.remaining);
    SortSorts(list);
    SortKeepsMembers(list);
    WithoutMembers(d, s.completed);
    IdListMembers(s.remaining);
    forall id ensures id in list <==> id in g && Doomed(g, id) {
      UnresolvableIffDoomed(g, id);
      if id in g && id !in s.completed {
        var st :| st in d && st.id == id;
        assert st in s.remaining;
      }
    }
    DistinctHasCountOne(list);
  }

  lemma {:induction false} DistinctHasCountOne(list: seq<StageId>)
    requires forall i, j | 0 <= i < j < |list| :: list[i] != list[j]
    ensures forall id | id in list :: multiset(list)[id] == 1
  {
    if list != [] {
      DistinctHasCountOne(list[1..]);
      assert list == [list[0]] + list[1..];
      assert list[0] !in list[1..];
      assert multiset(list[1..])[list[0]] == 0;
    }
  }

  /**
   * A run that finishes has completed every stage, and the plan has no stage that reaches a cycle
   * or an undeclared id.
   */
  lemma {:induction false} FinishedMeansResolvable<A>(p: nat, plan: seq<Stage>, events: seq<Event<A>>)
    requires p > 0 && Exec(p, plan, events).Some? && Exec(p, plan, events).value.status.Finished?
    ensures Exec(p, plan, events).value.completed == PlanGraph(plan).Keys
    ensures forall id | id in PlanGraph(plan) :: !Doomed(PlanGraph(plan), id)
  {
    var s, d, g := Exec(p, plan, events).value, DictValues(plan), PlanGraph(plan);
    ReachableInv(p, plan, events);
    WaveStart(p, plan, events);
    NothingRemains(d, g, s.completed);
    if Waves(events) > 0 {
      assert Level(g, Waves(events)) <= g.Keys;
    }
    LevelledIsNotDoomed(g, Waves(events));
  }

  lemma {:induction false} NothingRemains(d: seq<Stage>, g: Graph, done: set<StageId>)
    requires Without(d, done) == [] && g.Keys <= Ids(d)
    ensures g.Keys <= done
  {
    WithoutMembers(d, done);
    forall id | id in g ensures id in done {
      var st :| st in d && st.id == id;
      assert st !in Without(d, done);
    }
  }

  lemma {:induction false} LevelledIsNotDoomed(g: Graph, n: nat)
    ensures forall id | id in g && id in Level(g, n) :: !Doomed(g, id)
  {
    forall id | id in g && id in Level(g, n) ensures !Doomed(g, id) { UnresolvableIffDoomed(g, id); }
  }

  // ----- waves -----

  /** A stage is started in the wave whose number is the length of its longest dependency chain. */
  lemma {:induction false} StageRunsInWaveOfItsRank<A>(p: nat, plan: seq<Stage>, events: seq<Event<A>>, id: StageId)
    requires p > 0 && Exec(p, plan, events).Some? && id in Exec(p, plan, events).value.tasks
    ensures Resolvable(PlanGraph(plan), id) && Rank(PlanGraph(plan), id) == Waves(events)
    ensures forall c | Chain(PlanGraph(plan), c) && c[0] == id :: |c| <= Waves(events)
    ensures exists c :: Chain(PlanGraph(plan), c) && c[0] == id && |c| == Waves(events)
  {
    var s := Exec(p, plan, events).value;
    ReachableInv(p, plan, events);
    TaskIsInLastLevel(p, DictValues(plan), PlanGraph(plan), events, s, id);
    FirstLevelIsLongestChain(PlanGraph(plan), id, Waves(events));
  }

  lemma {:induction false} TaskIsInLastLevel<A>(
    p: nat, d: seq<Stage>, g: Graph, events: seq<Event<A>>, s: State<A>, id: StageId)
    requires Shape(p, d, s) && Levels(g, events, s) && id in s.tasks
    ensures Waves(events) > 0 && id in Level(g, Waves(events)) && id !in Level(g, Waves(events) - 1)
  {
    TasksNotCompleted(p, d, s);
    assert id in Ids(InFlight(s));
    assert id in Level(g, Waves(events));
  }

  /** A finished run took as many waves as the plan is deep. */
  lemma {:induction false} WavesEqualDepth<A>(p: nat, plan: seq<Stage>, events: seq<Event<A>>)
    requires p > 0 && Exec(p, plan, events).Some? && Exec(p, plan, events).value.status.Finished?
    ensures forall c | Chain(PlanGraph(plan), c) && c[0] in PlanGraph(plan) :: |c| <= Waves(events)
    ensures plan != [] ==> exists c :: Chain(PlanGraph(plan), c) && |c| == Waves(events)
  {
    AllInLevel(p, plan, events);
    if Waves(events) > 0 { LastLevelIsNew(p, plan, events); }
    DepthIsLongestChain(PlanGraph(plan), Waves(events));
    PlanGraphKeepsDeps(plan);
    if plan != [] { assert plan[0].id in Ids(plan); }
  }

  lemma {:induction false} AllInLevel<A>(p: nat, plan: seq<Stage>, events: seq<Event<A>>)
    requires p > 0 && Exec(p, plan, events).Some? && Exec(p, plan, events).value.status.Finished?
    ensures Level(PlanGraph(plan), Waves(events)) == PlanGraph(plan).Keys
  {
    WaveStart(p, plan, events);
    FinishedMeansResolvable(p, plan, events);
  }

  lemma {:induction false} LastLevelIsNew<A>(p: nat, plan: seq<Stage>, events: seq<Event<A>>)
    requires p > 0 && Exec(p, plan, events).Some? && Waves(events) > 0
    ensures Level(PlanGraph(plan), Waves(events) - 1) < Level(PlanGraph(plan), Waves(events))
  {
    ReachableInv(p, plan, events);
  }

  // ----- progress -----

  ghost predicate Enabled<A>(p: nat, s: State<A>, e: Event<A>)
    requires p > 0
  {
    Apply(p, s, e).Some?
  }

  lemma {:induction false} BetweenBatchesNeverStuck<A>(p: nat, s: State<A>)
    requires p > 0 && BetweenBatches(s)
    ensures exists e: Event<A> :: Enabled(p, s, e)
  {
    var e: Event<A> :=
      if s.queue != [] then StartBatch
      else if s.remaining == [] then Complete
      else if Ready(s.remaining, s.completed) == [] then ReportUnresolved
      else StartWave;
    assert Enabled(p, s, e);
  }

  lemma {:induction false} BatchNeverStuck<A>(p: nat, s: State<A>, a: A)
    requires p > 0 && s.status.Active? && s.batch != []
    ensures exists e: Event<A> :: Enabled(p, s, e)
  {
    if id :| id in s.tasks && !s.tasks[id].phase.Succeeded? {
      if s.tasks[id].phase.Attempting? {
        assert Enabled(p, s, Succeed(id, a));
      } else if s.tasks[id].phase.BackingOff? {
        assert Enabled(p, s, Wake(id));
      } else {
        assert Enabled(p, s, Raise(id));
      }
    } else {
      assert Enabled(p, s, Gather);
    }
  }

  /** A run that has not halted can always take another step. */
  lemma {:induction false} NeverStuck<A>(p: nat, plan: seq<Stage>, events: seq<Event<A>>, a: A)
    requires p > 0 && Exec(p, plan, events).Some? && Exec(p, plan, events).value.status.Active?
    ensures exists e: Event<A> :: Enabled(p, Exec(p, plan, events).value, e)
  {
    var s := Exec(p, plan, events).value;
    if s.batch == [] {
      BetweenBatchesNeverStuck(p, s);
    } else {
      BatchNeverStuck(p, s, a);
    }
  }

  // ----- confluence -----

  /** Stages whose artifact depends only on their dependencies' artifacts, after a fixed number of failures. */
  datatype Env<!A> = Env(value: (StageId, map<StageId, A>) -> A, failures: StageId -> nat)

  ghost predicate WithinRetries<A>(env: Env<A>, plan: seq<Stage>) {
    forall st | st in DictValues(plan) :: env.failures(st.id) < MaxAttempts(st)
  }

  function Inputs<A>(s: State<A>, stage: Stage): map<StageId, A> {
    map d | d in stage.deps && d in s.artifacts :: s.artifacts[d]
  }

  ghost predicate Obeys<A>(env: Env<A>, s: State<A>, e: Event<A>) {
    match e
    case Succeed(id, a) =>
      && id in s.tasks && s.tasks[id].phase.Attempting?
      && s.tasks[id].phase.attempt == env.failures(id) + 1
      && a == env.value(id, Inputs(s, s.tasks[id].stage))
    case Fail(id) =>
      id in s.tasks && s.tasks[id].phase.Attempting? && s.tasks[id].phase.attempt <= env.failures(id)
    case _ => true
  }

  ghost predicate ObeysAll<A>(env: Env<A>, p: nat, plan: seq<Stage>, events: seq<Event<A>>)
    requires p > 0
    decreases |events|
  {
    events == [] ||
    (var init := events[..|events| - 1];
     && ObeysAll(env, p, plan, init)
     && Exec(p, plan, init).Some?
     && Obeys(env, Exec(p, plan, init).value, events[|events| - 1]))
  }

  /** The artifact of a stage, by recursion over its dependencies. */
  ghost function Denote<A>(env: Env<A>, g: Graph, id: StageId): A
    requires Resolvable(g, id)
    decreases Rank(g, id), 1
  {
    env.value(id, DependencyValues(env, g, id))
  }

  ghost function DependencyValues<A>(env: Env<A>, g: Graph, id: StageId): map<StageId, A>
    requires Resolvable(g, id)
    decreases Rank(g, id), 0
  {
    assert id in g && forall d | d in g[id] :: Resolvable(g, d) && Rank(g, d) < Rank(g, id) by {
      DependencyRank(g, id, id);
      forall d | d in g[id] ensures Resolvable(g, d) && Rank(g, d) < Rank(g, id) { DependencyRank(g, id, d); }
    }
    map d | d in g[id] :: Denote(env, g, d)
  }

  ghost predicate Denoted<A>(env: Env<A>, g: Graph, s: State<A>) {
    && (forall id | id in s.artifacts ::
         Resolvable(g, id) && s.artifacts[id] == Denote(env, g, id))
    && (forall id | id in s.metrics :: s.metrics[id] == env.failures(id) + 1)
    && (forall id | id in s.tasks ::
         && !s.tasks[id].phase.Exhausted?
         && s.tasks[id].phase.attempt <= env.failures(id) + 1
         && (s.tasks[id].phase.BackingOff? ==> s.tasks[id].phase.attempt <= env.failures(id))
         && (s.tasks[id].phase.Succeeded? ==>
              && Resolvable(g, id) && s.tasks[id].phase.artifact == Denote(env, g, id)
              && s.tasks[id].phase.attempt == env.failures(id) + 1))
    && !s.status.Failed?
  }

  lemma {:induction false} InputsDenote<A>(env: Env<A>, g: Graph, s: State<A>, st: Stage)
    requires st.id in g && g[st.id] == st.deps
    requires forall x | x in st.deps :: x in s.artifacts && Resolvable(g, x) && s.artifacts[x] == Denote(env, g, x)
    ensures Resolvable(g, st.id) && env.value(st.id, Inputs(s, st)) == Denote(env, g, st.id)
  {
    ResolvableIfDependenciesAre(g, st.id);
    assert Inputs(s, st) == DependencyValues(env, g, st.id);
  }

  lemma {:induction false} TaskInputsAvailable<A>(p: nat, d: seq<Stage>, g: Graph, s: State<A>, id: StageId)
    requires Fits(d, g) && Shape(p, d, s) && id in s.tasks
    ensures var st := s.tasks[id].stage;
      st in d && st.id == id && id in g && g[id] == st.deps && forall x | x in st.deps :: x in s.artifacts
  {
  }

  lemma {:induction false} TaskStepDenoted<A>(
    env: Env<A>, p: nat, d: seq<Stage>, g: Graph, s: State<A>, e: Event<A>, s': State<A>)
    requires Fits(d, g) && Shape(p, d, s) && Denoted(env, g, s) && Obeys(env, s, e) && TaskStep(s, e, s')
    requires env.failures(e.id) < MaxAttempts(s.tasks[e.id].stage)
    ensures Denoted(env, g, s')
  {
    TaskInputsAvailable(p, d, g, s, e.id);
    InputsDenote(env, g, s, s.tasks[e.id].stage);
  }

  lemma {:induction false} StartBatchDenoted<A>(env: Env<A>, p: nat, g: Graph, s: State<A>, s': State<A>)
    requires p > 0 && Denoted(env, g, s) && Apply(p, s, StartBatch) == Some(s')
    ensures Denoted(env, g, s')
  {
    StartTasksStartsAll<A>(s.queue[0]);
  }

  lemma {:induction false} GatherDenoted<A>(env: Env<A>, g: Graph, s: State<A>, s': State<A>)
    requires Denoted(env, g, s) && (forall id | id in s.tasks :: s.tasks[id].phase.Succeeded?) && s' == Record(s)
    ensures Denoted(env, g, s')
  {
  }

  lemma {:induction false} OtherStepDenoted<A>(env: Env<A>, p: nat, g: Graph, s: State<A>, e: Event<A>, s': State<A>)
    requires p > 0 && Denoted(env, g, s) && Apply(p, s, e) == Some(s')
    requires e.StartWave? || e.ReportUnresolved? || e.Complete? || e.Raise?
    ensures Denoted(env, g, s')
  {
  }

  lemma {:induction false} StepKeepsDenoted<A>(
    env: Env<A>, p: nat, d: seq<Stage>, g: Graph, s: State<A>, e: Event<A>, s': State<A>)
    requires p > 0 && Fits(d, g) && Shape(p, d, s) && Denoted(env, g, s) && Obeys(env, s, e)
    requires Apply(p, s, e) == Some(s')
    requires forall st | st in d :: env.failures(st.id) < MaxAttempts(st)
    ensures Denoted(env, g, s')
  {
    if e.Succeed? || e.Fail? || e.Wake? {
      TaskStepEffect(p, s, e, s');
      TaskInputsAvailable(p, d, g, s, e.id);
      TaskStepDenoted(env, p, d, g, s, e, s');
    } else if e.StartBatch? {
      StartBatchDenoted(env, p, g, s, s');
    } else if e.Gather? {
      GatherEffect(p, s, s');
      GatherDenoted(env, g, s, s');
    } else {
      OtherStepDenoted(env, p, g, s, e, s');
    }
  }

  lemma {:induction false} ReachableDenoted<A>(env: Env<A>, p: nat, plan: seq<Stage>, events: seq<Event<A>>)
    requires p > 0 && Exec(p, plan, events).Some? && ObeysAll(env, p, plan, events) && WithinRetries(env, plan)
    ensures Denoted(env, PlanGraph(plan), Exec(p, plan, events).value)
    decreases |events|
  {
    if events != [] {
      var init, e := events[..|events| - 1], events[|events| - 1];
      ReachableDenoted(env, p, plan, init);
      ReachableInv(p, plan, init);
      StepKeepsDenoted(
        env, p, DictValues(plan), PlanGraph(plan), Exec(p, plan, init).value, e, Exec(p, plan, events).value);
    }
  }

  /** `[metrics[stage.stage_id] for stage in plan.stages if stage.stage_id in metrics]` */
  function MetricsList(plan: seq<Stage>, metrics: map<StageId, nat>): seq<(StageId, nat)> {
    if plan == [] then []
    else (if plan[0].id in metrics then [(plan[0].id, metrics[plan[0].id])] else []) + MetricsList(plan[1..], metrics)
  }

  /** When every stage has a metric, the list has one entry for each stage of the plan, in the plan's order. */
  lemma {:induction false} MetricsFollowThePlan(plan: seq<Stage>, metrics: map<StageId, nat>)
    requires forall s | s in plan :: s.id in metrics
    ensures var list := MetricsList(plan, metrics);
      |list| == |plan| && forall i | 0 <= i < |plan| :: list[i] == (plan[i].id, metrics[plan[i].id])
  {
    if plan != [] { MetricsFollowThePlan(plan[1..], metrics); }
  }

  lemma {:induction false} RecordedCount<A>(p: nat, plan: seq<Stage>, events: seq<Event<A>>, id: StageId)
    requires p > 0 && Exec(p, plan, events).Some? && id in Exec(p, plan, events).value.completed
    ensures var s := Exec(p, plan, events).value;
      id in s.metrics && s.metrics[id] == Dispatches(events, id)
  {
    ReachableInv(p, plan, events);
  }

  lemma {:induction false} AtLeastOnce<A>(p: nat, plan: seq<Stage>, events: seq<Event<A>>, id: StageId)
    requires p > 0 && Exec(p, plan, events).Some? && id in Exec(p, plan, events).value.completed
    ensures Dispatches(events, id) >= 1
  {
    SafeInEveryReachableState(p, plan, events);
    SuccessesAreDispatches(events, id);
  }

  lemma {:induction false} SuccessesAreDispatches<A>(events: seq<Event<A>>, id: StageId)
    ensures Successes(events, id) <= Dispatches(events, id)
  {
    if events != [] { SuccessesAreDispatches(events[..|events| - 1], id); }
  }

  /**
   * The metrics of a finished run: for each stage of the plan, in the plan's order, its id and the
   * number of times it was dispatched.
   */
  lemma {:induction false} FinishedMetrics<A>(p: nat, plan: seq<Stage>, events: seq<Event<A>>)
    requires p > 0 && Exec(p, plan, events).Some? && Exec(p, plan, events).value.status.Finished?
    ensures var list := MetricsList(plan, Exec(p, plan, events).value.metrics);
      && |list| == |plan|
      && forall i | 0 <= i < |plan| :: list[i] == (plan[i].id, Dispatches(events, plan[i].id))
  {
    var s := Exec(p, plan, events).value;
    FinishedMeansResolvable(p, plan, events);
    PlanGraphKeepsDeps(plan);
    DictValuesKeepsIds(plan);
    forall i | 0 <= i < |plan|
      ensures plan[i].id in s.metrics && s.metrics[plan[i].id] == Dispatches(events, plan[i].id)
    {
      assert plan[i].id in Ids(plan);
      RecordedCount(p, plan, events, plan[i].id);
    }
    MetricsFollowThePlan(plan, s.metrics);
  }

  lemma {:induction false} DictValuesMembers(plan: seq<Stage>)
    ensures forall s | s in DictValues(plan) :: s in plan
    ensures forall s | s in plan :: exists t :: t in DictValues(plan) && t.id == s.id
  {
    DictValuesKeepsIds(plan);
    forall s | s in plan ensures exists t :: t in DictValues(plan) && t.id == s.id { assert s.id in Ids(plan); }
    DictValuesListed(plan);
  }

  lemma {:induction false} DictValuesListed(plan: seq<Stage>)
    ensures forall s | s in DictValues(plan) :: s in plan
  {
    if plan != [] {
      var init, last := plan[..|plan| - 1], plan[|plan| - 1];
      DictValuesListed(init);
      DictValuesKeepsIds(init);
      DictPutKeepsIds(DictValues(init), last);
      assert plan == init + [last];
    }
  }

  /** When every stage may be tried `n` times, a finished run dispatched each of them once to `n` times. */
  lemma {:induction false} DispatchedWithin<A>(p: nat, plan: seq<Stage>, events: seq<Event<A>>, n: nat)
    requires p > 0 && Exec(p, plan, events).Some? && Exec(p, plan, events).value.status.Finished?
    requires forall s | s in plan :: MaxAttempts(s) == n
    ensures forall i | 0 <= i < |plan| :: 1 <= Dispatches(events, plan[i].id) <= n
  {
    forall i | 0 <= i < |plan| ensures 1 <= Dispatches(events, plan[i].id) <= n {
      CompletedInTheEnd(p, plan, events, plan[i]);
      AtLeastOnce(p, plan, events, plan[i].id);
      AtMostTheBudget(p, plan, events, plan[i], n);
    }
  }

  lemma {:induction false} CompletedInTheEnd<A>(p: nat, plan: seq<Stage>, events: seq<Event<A>>, s: Stage)
    requires p > 0 && Exec(p, plan, events).Some? && Exec(p, plan, events).value.status.Finished? && s in plan
    ensures s.id in Exec(p, plan, events).value.completed
  {
    FinishedMeansResolvable(p, plan, events);
    PlanGraphKeepsDeps(plan);
    assert s.id in Ids(plan);
  }

  lemma {:induction false} AtMostTheBudget<A>(p: nat, plan: seq<Stage>, events: seq<Event<A>>, s: Stage, n: nat)
    requires p > 0 && Exec(p, plan, events).Some? && s in plan && forall t | t in plan :: MaxAttempts(t) == n
    ensures Dispatches(events, s.id) <= n
  {
    SafeInEveryReachableState(p, plan, events);
    DictValuesMembers(plan);
    var st :| st in DictValues(plan) && st.id == s.id;
  }

  /** Deterministic stages within budget never fail a run, and a finished run has the artifacts the plan denotes. */
  lemma {:induction false} FinishedRunIsDenoted<A>(env: Env<A>, p: nat, plan: seq<Stage>, events: seq<Event<A>>)
    requires p > 0 && Exec(p, plan, events).Some? && ObeysAll(env, p, plan, events) && WithinRetries(env, plan)
    ensures !Exec(p, plan, events).value.status.Failed?
    ensures Exec(p, plan, events).value.status.Finished? ==>
      var s := Exec(p, plan, events).value;
      && (forall id | id in PlanGraph(plan) :: Resolvable(PlanGraph(plan), id))
      && s.artifacts == (map id | id in PlanGraph(plan) :: Denote(env, PlanGraph(plan), id))
      && s.metrics == (map id | id in PlanGraph(plan) :: env.failures(id) + 1)
  {
    var s, g := Exec(p, plan, events).value, PlanGraph(plan);
    ReachableDenoted(env, p, plan, events);
    if s.status.Finished? {
      SafeInEveryReachableState(p, plan, events);
      FinishedMeansResolvable(p, plan, events);
      FinishedIsDenoted(env, g, s);
    }
  }

  lemma {:induction false} FinishedIsDenoted<A>(env: Env<A>, g: Graph, s: State<A>)
    requires Denoted(env, g, s) && s.completed == s.metrics.Keys == s.artifacts.Keys == g.Keys
    ensures forall id | id in g :: Resolvable(g, id)
    ensures s.artifacts == (map id | id in g :: Denote(env, g, id))
    ensures s.metrics == (map id | id in g :: env.failures(id) + 1)
  {
  }

  /** Parallelism and completion order change neither the artifacts nor the ordered metrics of a finished run. */
  lemma {:induction false} Confluence<A>(
    env: Env<A>, plan: seq<Stage>, p: nat, events: seq<Event<A>>, p': nat, events': seq<Event<A>>)
    requires WithinRetries(env, plan) && p > 0 && p' > 0
    requires Exec(p, plan, events).Some? && ObeysAll(env, p, plan, events)
    requires Exec(p', plan, events').Some? && ObeysAll(env, p', plan, events')
    requires Exec(p, plan, events).value.status.Finished? && Exec(p', plan, events').value.status.Finished?
    ensures var s, s' := Exec(p, plan, events).value, Exec(p', plan, events').value;
      s.artifacts == s'.artifacts && MetricsList(plan, s.metrics) == MetricsList(plan, s'.metrics)
  {
    FinishedRunIsDenoted(env, p, plan, events);
    FinishedRunIsDenoted(env, p', plan, events');
  }
}
