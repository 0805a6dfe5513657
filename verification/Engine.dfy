/**
 * The run loop: waves, batches and retries over the stage executor. Every run it makes is one
 * path of Interleaving, with the faults it is given.
 */
module Engine {
  import opened Prelude
  import opened Dag
  import opened Plans
  import opened Store
  import opened Execution
  import opened Interleaving
  import S = Scheduler
  import SP = SchedulerProperties
  import H = CacheHistory

  datatype Summary =
    | Completed(artifacts: map<StageId, Artifact>, metrics: seq<(StageId, nat)>)
    | UnresolvedDependencies(ids: seq<StageId>)
    | StageFailed(id: StageId, error: ExecError)

  type Faults = set<(StageId, nat)>

  /** The state `st'` is `st` with another phase for this task. */
  ghost predicate InPhase(st: SchedState, id: StageId, ph: S.Phase<Artifact>, st': SchedState) {
    id in st.tasks && st' == S.SetPhase(st, id, ph)
  }

  /** The phase of a task after one more try: succeeded, given up, or waiting for the next. */
  function AfterTry(result: Result<Artifact, ExecError>, n: nat, maxAttempts: nat): S.Phase<Artifact> {
    if result.Ok? then S.Succeeded(result.value, n)
    else if n >= maxAttempts then S.Exhausted(n)
    else S.Attempting(n + 1)
  }

  lemma {:induction false} SetPhaseTwice(st: SchedState, id: StageId, a: S.Phase<Artifact>, b: S.Phase<Artifact>)
    requires id in st.tasks
    ensures S.SetPhase(S.SetPhase(st, id, a), id, b) == S.SetPhase(st, id, b)
    ensures S.SetPhase(st, id, st.tasks[id].phase) == st
  {
  }

  // ----- a batch -----

  datatype BatchResult = BatchResult(id: StageId, artifact: Artifact, attempts: nat)

  /** The first `j` tasks of the batch succeeded with these results, the others have not been dispatched. */
  ghost predicate BatchProgress(st0: SchedState, batch: seq<S.Stage>, st: SchedState, results: seq<BatchResult>) {
    && st == st0.(tasks := st.tasks) && st.tasks.Keys == S.Ids(batch) && |results| <= |batch|
    && (forall k | 0 <= k < |results| ::
         results[k].id == batch[k].id && st.tasks[batch[k].id].phase ==
           S.Succeeded(results[k].artifact, results[k].attempts))
    && (forall k | |results| <= k < |batch| :: st.tasks[batch[k].id].phase == S.Attempting(1))
  }

  lemma {:induction false} BatchStarts(st0: SchedState, batch: seq<S.Stage>, st: SchedState)
    requires st == st0.(tasks := S.StartTasks(batch))
    ensures BatchProgress(st0, batch, st, [])
  {
    S.StartTasksStartsAll<Artifact>(batch);
  }

  lemma {:induction false} BatchAdvances(
    st0: SchedState, batch: seq<S.Stage>, st: SchedState, results: seq<BatchResult>, a: Artifact, n: nat)
    requires S.DistinctIds(batch) && BatchProgress(st0, batch, st, results) && |results| < |batch|
    ensures batch[|results|].id in st.tasks
    ensures BatchProgress(st0, batch, S.SetPhase(st, batch[|results|].id, S.Succeeded(a, n)),
                          results + [BatchResult(batch[|results|].id, a, n)])
  {
  }

  function ResultArtifacts(results: seq<BatchResult>): map<StageId, Artifact> {
    if results == [] then map[]
    else ResultArtifacts(results[..|results| - 1])[results[|results| - 1].id := results[|results| - 1].artifact]
  }

  function ResultMetrics(results: seq<BatchResult>): map<StageId, nat> {
    if results == [] then map[]
    else ResultMetrics(results[..|results| - 1])[results[|results| - 1].id := results[|results| - 1].attempts]
  }

  function ResultIds(results: seq<BatchResult>): set<StageId> { set r | r in results :: r.id }

  ghost predicate DistinctResults(results: seq<BatchResult>) {
    forall i, j | 0 <= i < j < |results| :: results[i].id != results[j].id
  }

  lemma {:induction false} ResultIdsOf(results: seq<BatchResult>)
    requires results != []
    ensures ResultIds(results) == ResultIds(results[..|results| - 1]) + {results[|results| - 1].id}
    ensures DistinctResults(results) ==> results[|results| - 1].id !in ResultIds(results[..|results| - 1])
  {
  }

  lemma {:induction false} ResultMapsOf(results: seq<BatchResult>)
    requires DistinctResults(results)
    ensures ResultArtifacts(results).Keys == ResultMetrics(results).Keys == ResultIds(results)
    ensures forall r | r in results ::
      ResultArtifacts(results)[r.id] == r.artifact && ResultMetrics(results)[r.id] == r.attempts
  {
    if results != [] {
      var init, last := results[..|results| - 1], results[|results| - 1];
      ResultMapsOf(init);
      ResultIdsOf(results);
      forall r | r in results
        ensures ResultArtifacts(results)[r.id] == r.artifact && ResultMetrics(results)[r.id] == r.attempts
      {
        if r != last { assert r in init; }
      }
    }
  }

  /** The results are those of the tasks: every task succeeded, with the result that bears its id. */
  ghost predicate ResultsOf(tasks: map<StageId, S.Task<Artifact>>, results: seq<BatchResult>) {
    && tasks.Keys == ResultIds(results)
    && DistinctResults(results)
    && forall r | r in results :: r.id in tasks && tasks[r.id].phase == S.Succeeded(r.artifact, r.attempts)
  }

  lemma {:induction false} FullProgress(st0: SchedState, batch: seq<S.Stage>, st: SchedState, results: seq<BatchResult>)
    requires S.DistinctIds(batch) && BatchProgress(st0, batch, st, results) && |results| == |batch|
    ensures ResultsOf(st.tasks, results)
  {
  }

  /** Recording the results one by one is what the transition system does in one step. */
  lemma {:induction false} RecordIsGather(st: SchedState, results: seq<BatchResult>)
    requires ResultsOf(st.tasks, results)
    ensures forall id | id in st.tasks :: st.tasks[id].phase.Succeeded?
    ensures S.Record(st) == st.(
      artifacts := st.artifacts + ResultArtifacts(results), metrics := st.metrics + ResultMetrics(results),
      completed := st.completed + ResultIds(results), remaining := S.Without(st.remaining, ResultIds(results)),
      batch := [], tasks := map[])
  {
    ResultMapsOf(results);
    forall id | id in st.tasks
      ensures st.tasks[id].phase == S.Succeeded(ResultArtifacts(results)[id], ResultMetrics(results)[id])
    {
      var r :| r in results && r.id == id;
    }
    RecordedMaps(st.tasks, ResultArtifacts(results), ResultMetrics(results));
  }

  lemma {:induction false} RecordedMaps(
    tasks: map<StageId, S.Task<Artifact>>, artifacts: map<StageId, Artifact>, metrics: map<StageId, nat>)
    requires tasks.Keys == artifacts.Keys == metrics.Keys
    requires forall id | id in tasks :: tasks[id].phase == S.Succeeded(artifacts[id], metrics[id])
    ensures artifacts == map id | id in tasks :: tasks[id].phase.artifact
    ensures metrics == map id | id in tasks :: tasks[id].phase.attempt
  {
  }

  lemma {:induction false} PutIntoSum<V>(m: map<StageId, V>, n: map<StageId, V>, k: StageId, v: V)
    ensures m + n[k := v] == (m + n)[k := v]
    ensures m + map[] == m
  {
  }

  lemma {:induction false} OneMoreResult(results: seq<BatchResult>, i: nat, remaining: seq<S.Stage>)
    requires i < |results|
    ensures var r, before, after := results[i], results[..i], results[..i + 1];
      && ResultArtifacts(after) == ResultArtifacts(before)[r.id := r.artifact]
      && ResultMetrics(after) == ResultMetrics(before)[r.id := r.attempts]
      && ResultIds(after) == ResultIds(before) + {r.id}
      && S.Without(remaining, ResultIds(after)) == S.Without(S.Without(remaining, ResultIds(before)), {r.id})
  {
    assert results[..i + 1][..i] == results[..i] && results[..i + 1] == results[..i] + [results[i]];
    S.WithoutTwice(remaining, ResultIds(results[..i]), {results[i].id});
  }

  // The local variables of the run loop.
  datatype Progress = Progress(
    remaining: seq<S.Stage>, completed: set<StageId>, artifacts: map<StageId, Artifact>, metrics: map<StageId, nat>)

  predicate At(run: Progress, st: SchedState) {
    && st.remaining == run.remaining && st.completed == run.completed
    && st.artifacts == run.artifacts && st.metrics == run.metrics
  }

  /** `for stage, artifact, metric in batch_results: ...` */
  method RecordResults(results: seq<BatchResult>, run: Progress) returns (run': Progress)
    ensures run' == Progress(
      S.Without(run.remaining, ResultIds(results)), run.completed + ResultIds(results),
      run.artifacts + ResultArtifacts(results), run.metrics + ResultMetrics(results))
  {
    var Progress(remaining, completed, artifacts, metrics) := run;
    S.KeepAll(remaining);
    assert results[..0] == [] && ResultIds([]) == {};
    assert artifacts + map[] == artifacts && metrics + map[] == metrics;
    for i := 0 to |results|
      invariant artifacts == run.artifacts + ResultArtifacts(results[..i])
      invariant metrics == run.metrics + ResultMetrics(results[..i])
      invariant completed == run.completed + ResultIds(results[..i])
      invariant remaining == S.Without(run.remaining, ResultIds(results[..i]))
    {
      var r := results[i];
      OneMoreResult(results, i, run.remaining);
      PutIntoSum(run.artifacts, ResultArtifacts(results[..i]), r.id, r.artifact);
      PutIntoSum(run.metrics, ResultMetrics(results[..i]), r.id, r.attempts);
      artifacts := artifacts[r.id := r.artifact];
      metrics := metrics[r.id := r.attempts];
      completed := completed + {r.id};
      remaining := S.Without(remaining, {r.id});
    }
    assert results[..|results|] == results;
    run' := Progress(remaining, completed, artifacts, metrics);
  }

  // ----- facts about the next batch -----

  lemma {:induction false} PrefixDistinct(q: seq<S.Stage>, rest: seq<S.Stage>)
    requires S.DistinctIds(q + rest)
    ensures S.DistinctIds(q)
  {
    forall i, j | 0 <= i < j < |q| ensures q[i].id != q[j].id { assert (q + rest)[i] == q[i] && (q + rest)[j] == q[j]; }
  }

  ghost function Started(st: SchedState): SchedState
    requires st.queue != []
  {
    st.(batch := st.queue[0], queue := st.queue[1..], tasks := S.StartTasks(st.queue[0]))
  }

  /** The next batch has distinct stages, and its first has not run yet. */
  lemma {:induction false} NextBatchStages(p: nat, plan: seq<S.Stage>, events: seq<SchedEvent>, st: SchedState)
    requires p > 0 && S.Exec(p, plan, events) == Some(st) && S.BetweenBatches(st) && st.queue != []
    ensures S.DistinctIds(st.queue[0]) && st.queue[0] != [] && st.queue[0][0] in st.remaining
  {
    S.ReachableInv(p, plan, events);
    var q, rest := st.queue[0], S.Flatten(st.queue[1..]);
    assert S.InFlight(st) == q + rest && (q + rest)[0] == q[0];
    PrefixDistinct(q, rest);
    S.WithoutMembers(S.DictValues(plan), st.completed);
  }

  /** And it can start. */
  lemma {:induction false} NextBatch(x: Setting, faults: Faults, tr: Trace)
    requires Reached(x, faults, tr) && S.BetweenBatches(tr.st) && tr.st.queue != []
    ensures Reached(x, faults, Then(tr, S.StartBatch, Started(tr.st)))
    ensures S.DistinctIds(tr.st.queue[0]) && tr.st.queue[0] != []
    ensures tr.st.queue[0][0] in tr.st.remaining
  {
    ReachedIsSound(x, faults, tr);
    NextBatchStages(x.p, x.plan, tr.events, tr.st);
    QuietReached(x, faults, tr, S.StartBatch, Started(tr.st));
  }

  /** A batch all of whose tasks succeeded is gathered: that is what recording its results does. */
  lemma {:induction false} BatchIsRecorded(
    x: Setting, faults: Faults, tr: Trace, st0: SchedState, batch: seq<S.Stage>, results: seq<BatchResult>)
    requires Reached(x, faults, tr) && x.p > 0 && tr.st.status.Active? && tr.st.batch == batch != []
    requires S.DistinctIds(batch)
    requires BatchProgress(st0, batch, tr.st, results) && |results| == |batch|
    ensures batch[0].id in ResultIds(results)
    ensures forall id | id in tr.st.tasks :: tr.st.tasks[id].phase.Succeeded?
    ensures Reached(x, faults, Then(tr, S.Gather, S.Record(tr.st)))
    ensures S.Record(tr.st) == tr.st.(
      artifacts := tr.st.artifacts + ResultArtifacts(results), metrics := tr.st.metrics + ResultMetrics(results),
      completed := tr.st.completed + ResultIds(results), remaining := S.Without(tr.st.remaining, ResultIds(results)),
      batch := [], tasks := map[])
  {
    FullProgress(st0, batch, tr.st, results);
    RecordIsGather(tr.st, results);
    assert results[0] in results;
    QuietReached(x, faults, tr, S.Gather, S.Record(tr.st));
  }

  /** Between waves: the run is finished, is stuck, or starts a wave. */
  ghost function NextRound(p: nat, st: SchedState): (SchedEvent, SchedState)
    requires p > 0
  {
    var ready := S.Ready(st.remaining, st.completed);
    if st.remaining == [] then (S.Complete, st.(status := S.Finished))
    else if ready == [] then (S.ReportUnresolved, st.(status := S.Unresolved(Sort(S.IdList(st.remaining)))))
    else (S.StartWave, st.(queue := S.Chunk(ready, p)))
  }

  lemma {:induction false} NextRoundReached(x: Setting, faults: Faults, tr: Trace)
    requires Reached(x, faults, tr) && x.p > 0 && S.BetweenBatches(tr.st) && tr.st.queue == []
    ensures var (e, st) := NextRound(x.p, tr.st); Reached(x, faults, Then(tr, e, st))
  {
    var (e, st) := NextRound(x.p, tr.st);
    QuietReached(x, faults, tr, e, st);
  }

  /** After the backoff the task is dispatched again. */
  lemma {:induction false} WakeReached(x: Setting, faults: Faults, tr: Trace, id: StageId)
    requires Reached(x, faults, tr) && x.p > 0 && id in tr.st.tasks && tr.st.tasks[id].phase.BackingOff?
    ensures Reached(
      x, faults, Then(tr, S.Wake(id), S.SetPhase(tr.st, id, S.Attempting(tr.st.tasks[id].phase.attempt + 1))))
  {
    S.WakeApplies(x.p, tr.st, id);
    QuietReached(
      x, faults, tr, S.Wake(id), S.SetPhase(tr.st, id, S.Attempting(tr.st.tasks[id].phase.attempt + 1)));
  }

  lemma {:induction false} ReachedTask(x: Setting, faults: Faults, tr: Trace, id: StageId)
    requires Reached(x, faults, tr) && id in tr.st.tasks
    ensures OwnRun(x, tr.h) && id in x.stages.stages && tr.st.tasks[id].stage == ToStage(x.stages.stages[id])
  {
    ReachedIsSound(x, faults, tr);
    TaskStage(x, tr, id);
  }

  lemma {:induction false} RemainingShrinks(remaining: seq<S.Stage>, s: S.Stage, done: set<StageId>)
    ensures |S.Without(remaining, done)| <= |remaining|
    ensures s in remaining && s.id in done ==> |S.Without(remaining, done)| < |remaining|
  {
    if remaining != [] { RemainingShrinks(remaining[1..], s, done); }
  }

  class StageScheduler {
    const executor: StageExecutor
    const parallelism: int

    constructor (executor: StageExecutor, parallelism: int)
      ensures this.executor == executor && this.parallelism == parallelism
    {
      this.executor, this.parallelism := executor, parallelism;
    }

    /** The executor works on the setting of the run. */
    ghost predicate Serves(x: Setting, workspace: string, planId: string) {
      && executor.w == x.w && executor.ds == x.ds && executor.p == x.stages
      && executor.store.contentHash == x.w.contentHash
      && workspace == x.workspace && planId == x.planId && x.p == if parallelism < 1 then 1 else parallelism
    }

    /** The trace is on a path of the run, and the store is where its history stands. */
    ghost predicate Stands(x: Setting, faults: Faults, tr: Trace)
      reads executor.store
    {
      Reached(x, faults, tr) && executor.store.View() == tr.h.store
    }

    /** One call of the dispatcher. */
    method Dispatch(
      id: StageId, workspace: string, planId: string, fault: bool, ghost x: Setting, ghost faults: Faults,
      ghost tr: Trace)
      returns (result: Result<Artifact, ExecError>, ghost tr': Trace)
      requires Serves(x, workspace, planId) && Stands(x, faults, tr)
      requires id in tr.st.tasks && tr.st.tasks[id].phase.Attempting?
      requires fault <==> (id, tr.st.tasks[id].phase.attempt) in faults
      modifies executor.store
      ensures Stands(x, faults, tr')
      ensures var t := tr.st.tasks[id];
        tr'.st == S.SetPhase(tr.st, id,
          if result.Ok? then S.Succeeded(result.value, t.phase.attempt) else S.AfterFailure(t))
    {
      ReachedTask(x, faults, tr, id);
      AttemptReached(x, faults, tr, id, fault);
      var outcome, cached := executor.ExecuteStage(workspace, planId, executor.p.stages[id], fault);
      result := outcome;
      tr' := AfterAttempt(x, tr, id, fault);
      AttemptLeaves(x, tr, id, fault);
    }

    static lemma {:induction false} AttemptLeaves(x: Setting, tr: Trace, id: StageId, fault: bool)
      requires CanAttempt(x, tr, id)
      ensures AfterAttempt(x, tr, id, fault).h.store ==
              H.StageOutcome(x.cat, x.w, tr.h, x.workspace, x.planId, id, fault).store
    {
    }

    /** One iteration of the retry loop: dispatch, and back off when the stage may be tried again. */
    method Attempt(
      id: StageId, workspace: string, planId: string, fault: bool, n: nat, maxAttempts: nat,
      ghost x: Setting, ghost faults: Faults, ghost st: SchedState, ghost tr: Trace)
      returns (result: Result<Artifact, ExecError>, ghost tr': Trace)
      requires Serves(x, workspace, planId) && Stands(x, faults, tr) && InPhase(st, id, S.Attempting(n), tr.st)
      requires fault <==> (id, n) in faults
      requires maxAttempts == S.MaxAttempts(st.tasks[id].stage)
      modifies executor.store
      ensures Stands(x, faults, tr')
      ensures InPhase(st, id, AfterTry(result, n, maxAttempts), tr'.st)
    {
      result, tr' := Dispatch(id, workspace, planId, fault, x, faults, tr);
      SetPhaseTwice(st, id, S.Attempting(n), tr'.st.tasks[id].phase);
      if result.Err? && n < maxAttempts {
        WakeReached(x, faults, tr', id);
        SetPhaseTwice(st, id, tr'.st.tasks[id].phase, S.Attempting(n + 1));
        tr' := Then(tr', S.Wake(id), S.SetPhase(tr'.st, id, S.Attempting(n + 1)));
      }
    }

    /** `_execute_with_retry`; `faults` says which attempts the outside world makes fail. */
    method ExecuteWithRetry(
      id: StageId, workspace: string, planId: string, faults: Faults, ghost x: Setting, ghost tr: Trace)
      returns (result: Result<Artifact, ExecError>, attempts: nat, ghost tr': Trace)
      requires Serves(x, workspace, planId) && Stands(x, faults, tr)
      requires id in tr.st.tasks && tr.st.tasks[id].phase == S.Attempting(1)
      modifies executor.store
      ensures Stands(x, faults, tr')
      ensures InPhase(
        tr.st, id, if result.Ok? then S.Succeeded(result.value, attempts) else S.Exhausted(attempts), tr'.st)
      ensures attempts <= S.MaxAttempts(tr.st.tasks[id].stage)
      ensures result.Err? ==> attempts == S.MaxAttempts(tr.st.tasks[id].stage)
    {
      ReachedTask(x, faults, tr, id);
      var maxAttempts := S.MaxAttempts(ToStage(executor.p.stages[id]));
      attempts := 1;
      tr' := tr;
      SetPhaseTwice(tr.st, id, S.Attempting(1), S.Attempting(1));
      while true
        invariant 1 <= attempts <= maxAttempts
        invariant Stands(x, faults, tr') && InPhase(tr.st, id, S.Attempting(attempts), tr'.st)
        decreases maxAttempts - attempts
      {
        result, tr' := Attempt(
          id, workspace, planId, (id, attempts) in faults, attempts, maxAttempts, x, faults, tr.st, tr');
        if result.Ok? || attempts >= maxAttempts {
          return;
        }
        attempts := attempts + 1;
      }
    }

    /** One task of the batch; when it fails for good, the run ends. */
    method RunTask(
      id: StageId, workspace: string, planId: string, faults: Faults, ghost x: Setting, ghost tr: Trace)
      returns (result: Result<Artifact, ExecError>, attempts: nat, ghost tr': Trace)
      requires Serves(x, workspace, planId) && Stands(x, faults, tr)
      requires tr.st.status.Active? && id in tr.st.tasks && tr.st.tasks[id].phase == S.Attempting(1)
      modifies executor.store
      ensures Stands(x, faults, tr')
      ensures result.Ok? ==> tr'.st == S.SetPhase(tr.st, id, S.Succeeded(result.value, attempts))
      ensures result.Err? ==> tr'.st.status == S.Failed(id)
    {
      result, attempts, tr' := ExecuteWithRetry(id, workspace, planId, faults, x, tr);
      if result.Err? {
        QuietReached(x, faults, tr', S.Raise(id), tr'.st.(status := S.Failed(id)));
        tr' := Then(tr', S.Raise(id), tr'.st.(status := S.Failed(id)));
      }
    }

    /**
     * The tasks of one batch. A task that fails for good ends the run, the tasks after it are not
     * awaited. The tasks are taken in order here; Interleaving is about every other order.
     */
    method RunBatch(
      batch: seq<S.Stage>, workspace: string, planId: string, faults: Faults, ghost x: Setting, ghost tr: Trace)
      returns (results: seq<BatchResult>, failure: Option<(StageId, ExecError)>, ghost tr': Trace)
      requires Serves(x, workspace, planId) && Stands(x, faults, tr)
      requires tr.st.status.Active? && tr.st.batch == batch && S.DistinctIds(batch)
      requires tr.st.tasks == S.StartTasks(batch)
      modifies executor.store
      ensures Stands(x, faults, tr')
      ensures failure.None? ==> BatchProgress(tr.st, batch, tr'.st, results) && |results| == |batch|
      ensures failure.Some? ==> tr'.st.status == S.Failed(failure.value.0)
    {
      results, failure, tr' := [], None, tr;
      BatchStarts(tr.st, batch, tr.st);
      for j := 0 to |batch|
        invariant Stands(x, faults, tr')
        invariant BatchProgress(tr.st, batch, tr'.st, results) && |results| == j
      {
        ghost var st := tr'.st;
        assert batch[j] in batch;
        var result, attempts;
        result, attempts, tr' := RunTask(batch[j].id, workspace, planId, faults, x, tr');
        if result.Err? {
          return results, Some((batch[j].id, result.error)), tr';
        }
        BatchAdvances(tr.st, batch, st, results, result.value, attempts);
        results := results + [BatchResult(batch[j].id, result.value, attempts)];
      }
    }

    /** One batch: start its tasks, await them, record their results. */
    method FinishBatch(
      batch: seq<S.Stage>, workspace: string, planId: string, faults: Faults, run: Progress,
      ghost x: Setting, ghost tr: Trace)
      returns (run': Progress, failure: Option<(StageId, ExecError)>, ghost tr': Trace)
      requires Serves(x, workspace, planId) && Stands(x, faults, tr)
      requires S.BetweenBatches(tr.st) && tr.st.queue != [] && tr.st.queue[0] == batch && At(run, tr.st)
      modifies executor.store
      ensures Stands(x, faults, tr')
      ensures failure.None? ==>
        S.BetweenBatches(tr'.st) && tr'.st.queue == tr.st.queue[1..] && At(run', tr'.st) &&
        |run'.remaining| < |run.remaining|
      ensures failure.Some? ==> tr'.st.status == S.Failed(failure.value.0)
    {
      NextBatch(x, faults, tr);
      ghost var started := Started(tr.st);
      tr' := Then(tr, S.StartBatch, started);
      var results;
      results, failure, tr' := RunBatch(batch, workspace, planId, faults, x, tr');
      run' := run;
      if failure.None? {
        BatchIsRecorded(x, faults, tr', started, batch, results);
        RemainingShrinks(run.remaining, batch[0], ResultIds(results));
        run' := RecordResults(results, run);
        tr' := Then(tr', S.Gather, S.Record(tr'.st));
      }
    }

    /** `for batch in _chunk(ready, self._stage_parallelism)` */
    method RunWave(
      batches: seq<seq<S.Stage>>, workspace: string, planId: string, faults: Faults, run: Progress,
      ghost x: Setting, ghost tr: Trace)
      returns (run': Progress, failure: Option<(StageId, ExecError)>, ghost tr': Trace)
      requires Serves(x, workspace, planId) && Stands(x, faults, tr)
      requires S.BetweenBatches(tr.st) && tr.st.queue == batches != [] && At(run, tr.st)
      modifies executor.store
      ensures Stands(x, faults, tr')
      ensures failure.None? ==>
        S.BetweenBatches(tr'.st) && tr'.st.queue == [] && At(run', tr'.st) && |run'.remaining| < |run.remaining|
      ensures failure.Some? ==> tr'.st.status == S.Failed(failure.value.0)
    {
      run', failure, tr' := run, None, tr;
      for i := 0 to |batches|
        invariant failure.None? && Stands(x, faults, tr')
        invariant S.BetweenBatches(tr'.st) && tr'.st.queue == batches[i..] && At(run', tr'.st)
        invariant |run'.remaining| <= |run.remaining| && (i > 0 ==> |run'.remaining| < |run.remaining|)
      {
        run', failure, tr' := FinishBatch(batches[i], workspace, planId, faults, run', x, tr');
        if failure.Some? { return; }
      }
    }

    /** `StageScheduler.run`: the loop follows one path, and stops where the transition system does. */
    method Run(stages: seq<StageDef>, workspace: string, planId: string, faults: Faults, ghost x: Setting)
      returns (summary: Summary, ghost tr: Trace)
      requires Serves(x, workspace, planId) && x.plan == SchedulerPlan(stages) && CanStart(x)
      requires executor.store.View() == x.start.store
      modifies executor.store
      ensures Stands(x, faults, tr)
      ensures match summary
        case Completed(artifacts, metrics) =>
          tr.st.status == S.Finished && artifacts == tr.st.artifacts && metrics == SP.MetricsList(x.plan, tr.st.metrics)
        case UnresolvedDependencies(ids) => tr.st.status == S.Unresolved(ids)
        case StageFailed(id, _) => tr.st.status == S.Failed(id)
    {
      BegunIsReached(x, faults);
      tr := Begun(x);
      var plan := SchedulerPlan(stages);
      var run := Progress(S.DictValues(plan), {}, map[], map[]);
      while run.remaining != []
        invariant Stands(x, faults, tr)
        invariant S.BetweenBatches(tr.st) && tr.st.queue == [] && At(run, tr.st)
        decreases |run.remaining|
      {
        NextRoundReached(x, faults, tr);
        var ready := S.Ready(run.remaining, run.completed);
        tr := Then(tr, NextRound(x.p, tr.st).0, NextRound(x.p, tr.st).1);
        if ready == [] {
          return UnresolvedDependencies(Sort(S.IdList(run.remaining))), tr;
        }
        var failure;
        run, failure, tr := RunWave(S.Chunk(ready, S.Parallelism(parallelism)), workspace, planId, faults, run, x, tr);
        if failure.Some? {
          return StageFailed(failure.value.0, failure.value.1), tr;
        }
      }
      NextRoundReached(x, faults, tr);
      tr := Then(tr, NextRound(x.p, tr.st).0, NextRound(x.p, tr.st).1);
      summary := Completed(run.artifacts, SP.MetricsList(plan, run.metrics));
    }
  }
}
