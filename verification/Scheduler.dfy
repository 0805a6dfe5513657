/**
 * The stage scheduler as a transition system. Every interleaving of the concurrent
 * tasks of a batch is a sequence of events, and every statement below is about all of them.
 */
module Scheduler {
  import opened Prelude
  import opened Dag

  datatype Stage = Stage(id: StageId, deps: seq<StageId>, retryLimit: int)

  // One call of `_execute_with_retry`: `attempt` counts dispatches, from 1.
  datatype Phase<A> =
    | Attempting(attempt: nat)
    | BackingOff(attempt: nat)
    | Succeeded(artifact: A, attempt: nat)
    | Exhausted(attempt: nat)

  datatype Task<A> = Task(stage: Stage, phase: Phase<A>)

  datatype Status = Active | Finished | Unresolved(ids: seq<StageId>) | Failed(id: StageId)

  datatype State<A> = State(
    remaining: seq<Stage>,
    completed: set<StageId>,
    queue: seq<seq<Stage>>,
    batch: seq<Stage>,
    tasks: map<StageId, Task<A>>,
    artifacts: map<StageId, A>,
    metrics: map<StageId, nat>,
    status: Status)

  datatype Event<A> =
    | StartWave
    | StartBatch
    | Succeed(id: StageId, artifact: A)
    | Fail(id: StageId)
    | Wake(id: StageId)
    | Gather
    | Raise(id: StageId)
    | ReportUnresolved
    | Complete

  // ----- the pieces of `run` that compute a value -----

  /** `d[s.id] = s` on an insertion-ordered dict. */
  function DictPut(d: seq<Stage>, s: Stage): seq<Stage> {
    if d == [] then [s]
    else if d[0].id == s.id then [s] + d[1..]
    else [d[0]] + DictPut(d[1..], s)
  }

  /** The values of `{stage.stage_id: stage for stage in stages}`, in insertion order. */
  function DictValues(stages: seq<Stage>): seq<Stage> {
    if stages == [] then [] else DictPut(DictValues(stages[..|stages| - 1]), stages[|stages| - 1])
  }

  function Ids(stages: seq<Stage>): set<StageId> { set s | s in stages :: s.id }

  function IdList(stages: seq<Stage>): (ids: seq<StageId>)
    ensures |ids| == |stages| && forall i | 0 <= i < |ids| :: ids[i] == stages[i].id
  {
    seq(|stages|, i requires 0 <= i < |stages| => stages[i].id)
  }

  function Without(stages: seq<Stage>, done: set<StageId>): seq<Stage> {
    if stages == [] then []
    else (if stages[0].id in done then [] else [stages[0]]) + Without(stages[1..], done)
  }

  predicate IsReady(s: Stage, done: set<StageId>) { forall d | d in s.deps :: d in done }

  function Ready(stages: seq<Stage>, done: set<StageId>): seq<Stage> {
    if stages == [] then []
    else (if IsReady(stages[0], done) then [stages[0]] else []) + Ready(stages[1..], done)
  }

  function Chunk(items: seq<Stage>, size: nat): seq<seq<Stage>>
    requires size > 0
    decreases |items|
  {
    if items == [] then []
    else if |items| <= size then [items]
    else [items[..size]] + Chunk(items[size..], size)
  }

  function Flatten(batches: seq<seq<Stage>>): seq<Stage> {
    if batches == [] then [] else batches[0] + Flatten(batches[1..])
  }

  function Parallelism(configured: int): nat { if configured < 1 then 1 else configured }

  function MaxAttempts(s: Stage): nat { if s.retryLimit + 1 < 1 then 1 else s.retryLimit + 1 }

  ghost function GraphOf(stages: seq<Stage>): Graph {
    if stages == [] then map[]
    else GraphOf(stages[..|stages| - 1])[stages[|stages| - 1].id := stages[|stages| - 1].deps]
  }

  /** The dependency graph the scheduler works on: a repeated stage id keeps its last definition. */
  ghost function PlanGraph(plan: seq<Stage>): Graph { GraphOf(DictValues(plan)) }

  // ----- transitions -----

  function Init<A>(plan: seq<Stage>): State<A> {
    State(DictValues(plan), {}, [], [], map[], map[], map[], Active)
  }

  function StartTasks<A>(batch: seq<Stage>): map<StageId, Task<A>> {
    if batch == [] then map[]
    else StartTasks(batch[..|batch| - 1])[batch[|batch| - 1].id := Task(batch[|batch| - 1], Attempting(1))]
  }

  predicate BetweenBatches<A>(s: State<A>) { s.status == Active && s.batch == [] }

  function SetPhase<A>(s: State<A>, id: StageId, phase: Phase<A>): State<A>
    requires id in s.tasks
  {
    s.(tasks := s.tasks[id := s.tasks[id].(phase := phase)])
  }

  function AfterFailure<A>(t: Task<A>): Phase<A>
    requires t.phase.Attempting?
  {
    if t.phase.attempt >= MaxAttempts(t.stage) then Exhausted(t.phase.attempt) else BackingOff(t.phase.attempt)
  }

  /** What `asyncio.gather` returns is recorded for the whole batch at once. */
  function Record<A>(s: State<A>): State<A>
    requires forall id | id in s.tasks :: s.tasks[id].phase.Succeeded?
  {
    s.(artifacts := s.artifacts + map id | id in s.tasks :: s.tasks[id].phase.artifact,
       metrics := s.metrics + map id | id in s.tasks :: s.tasks[id].phase.attempt,
       completed := s.completed + s.tasks.Keys,
       remaining := Without(s.remaining, s.tasks.Keys),
       batch := [],
       tasks := map[])
  }

  /**
   * One step; None when the event is not enabled. After `Raise` the other tasks of the
   * batch go on: `gather` does not cancel them.
   */
  function Apply<A>(p: nat, s: State<A>, e: Event<A>): Option<State<A>>
    requires p > 0
  {
    match e
    case StartWave =>
      if BetweenBatches(s) && s.queue == [] && Ready(s.remaining, s.completed) != []
      then Some(s.(queue := Chunk(Ready(s.remaining, s.completed), p))) else None
    case ReportUnresolved =>
      if BetweenBatches(s) && s.queue == [] && s.remaining != [] && Ready(s.remaining, s.completed) == []
      then Some(s.(status := Unresolved(Sort(IdList(s.remaining))))) else None
    case Complete =>
      if BetweenBatches(s) && s.queue == [] && s.remaining == []
      then Some(s.(status := Finished)) else None
    case StartBatch =>
      if BetweenBatches(s) && s.queue != []
      then Some(s.(batch := s.queue[0], queue := s.queue[1..], tasks := StartTasks(s.queue[0]))) else None
    case Succeed(id, a) =>
      if id in s.tasks && s.tasks[id].phase.Attempting?
      then Some(SetPhase(s, id, Succeeded(a, s.tasks[id].phase.attempt))) else None
    case Fail(id) =>
      if id in s.tasks && s.tasks[id].phase.Attempting?
      then Some(SetPhase(s, id, AfterFailure(s.tasks[id]))) else None
    case Wake(id) =>
      if id in s.tasks && s.tasks[id].phase.BackingOff?
      then Some(SetPhase(s, id, Attempting(s.tasks[id].phase.attempt + 1))) else None
    case Gather =>
      if s.status == Active && s.batch != [] && (forall id | id in s.tasks :: s.tasks[id].phase.Succeeded?)
      then Some(Record(s)) else None
    case Raise(id) =>
      if s.status == Active && id in s.tasks && s.tasks[id].phase.Exhausted?
      then Some(s.(status := Failed(id))) else None
  }

  lemma {:induction false} WakeApplies<A>(p: nat, s: State<A>, id: StageId)
    requires p > 0 && id in s.tasks && s.tasks[id].phase.BackingOff?
    ensures Apply(p, s, Wake(id)) == Some(SetPhase(s, id, Attempting(s.tasks[id].phase.attempt + 1)))
  {
  }

  /** The state after a sequence of events, or None when some event was not enabled. */
  function Exec<A>(p: nat, plan: seq<Stage>, events: seq<Event<A>>): Option<State<A>>
    requires p > 0
    decreases |events|
  {
    if events == [] then Some(Init(plan))
    else
      var before := Exec(p, plan, events[..|events| - 1]);
      if before.None? then None else Apply(p, before.value, events[|events| - 1])
  }

  // ----- what an event sequence says about the dispatches and waves that happened -----

  function Dispatches<A>(events: seq<Event<A>>, id: StageId): nat
    decreases |events|
  {
    if events == [] then 0
    else
      var e := events[|events| - 1];
      Dispatches(events[..|events| - 1], id) + (if (e.Succeed? || e.Fail?) && e.id == id then 1 else 0)
  }

  function Successes<A>(events: seq<Event<A>>, id: StageId): nat
    decreases |events|
  {
    if events == [] then 0
    else
      var e := events[|events| - 1];
      Successes(events[..|events| - 1], id) + (if e.Succeed? && e.id == id then 1 else 0)
  }

  function Waves<A>(events: seq<Event<A>>): nat
    decreases |events|
  {
    if events == [] then 0
    else Waves(events[..|events| - 1]) + (if events[|events| - 1].StartWave? then 1 else 0)
  }

  /** Dispatches of a task that are over. */
  function Spent<A>(ph: Phase<A>): int { if ph.Attempting? then ph.attempt - 1 else ph.attempt }

  // ----- lemmas about the list helpers -----

  ghost predicate DistinctIds(s: seq<Stage>) { forall i, j | 0 <= i < j < |s| :: s[i].id != s[j].id }

  lemma {:induction false} DictPutKeepsIds(d: seq<Stage>, s: Stage)
    requires DistinctIds(d)
    ensures DistinctIds(DictPut(d, s))
    ensures Ids(DictPut(d, s)) == Ids(d) + {s.id}
    ensures s in DictPut(d, s)
    ensures forall t | t in DictPut(d, s) :: t == s || t in d
  {
    if d == [] {
    } else if d[0].id == s.id {
      assert d == [d[0]] + d[1..];
    } else {
      DictPutKeepsIds(d[1..], s);
      var r := DictPut(d[1..], s);
      assert d == [d[0]] + d[1..];
      assert Ids(d) == {d[0].id} + Ids(d[1..]);
      assert Ids([d[0]] + r) == {d[0].id} + Ids(r);
      forall j | 0 <= j < |r| ensures d[0].id != r[j].id {
        assert r[j] in r;
      }
    }
  }

  lemma {:induction false} DictValuesKeepsIds(stages: seq<Stage>)
    ensures DistinctIds(DictValues(stages))
    ensures Ids(DictValues(stages)) == Ids(stages)
  {
    if stages != [] {
      var init, last := stages[..|stages| - 1], stages[|stages| - 1];
      DictValuesKeepsIds(init);
      DictPutKeepsIds(DictValues(init), last);
      assert stages == init + [last];
    }
  }

  lemma {:induction false} GraphOfKeepsDeps(d: seq<Stage>)
    requires DistinctIds(d)
    ensures GraphOf(d).Keys == Ids(d)
    ensures forall s | s in d :: GraphOf(d)[s.id] == s.deps
  {
    if d != [] {
      var init, last := d[..|d| - 1], d[|d| - 1];
      GraphOfKeepsDeps(init);
      assert d == init + [last];
      forall s | s in d ensures GraphOf(d)[s.id] == s.deps {
        if s in init { assert s.id != last.id; }
      }
    }
  }

  lemma {:induction false} PlanGraphKeepsDeps(plan: seq<Stage>)
    ensures DistinctIds(DictValues(plan))
    ensures PlanGraph(plan).Keys == Ids(DictValues(plan)) == Ids(plan)
    ensures forall s | s in DictValues(plan) :: PlanGraph(plan)[s.id] == s.deps
  {
    DictValuesKeepsIds(plan);
    GraphOfKeepsDeps(DictValues(plan));
  }

  lemma {:induction false} WithoutMembers(d: seq<Stage>, done: set<StageId>)
    ensures forall s :: s in Without(d, done) <==> s in d && s.id !in done
    ensures DistinctIds(d) ==> DistinctIds(Without(d, done))
  {
    if d != [] {
      WithoutMembers(d[1..], done);
      assert d == [d[0]] + d[1..];
      if DistinctIds(d) {
        var r := Without(d[1..], done);
        forall j | 0 <= j < |r| ensures r[j].id != d[0].id { assert r[j] in r; }
      }
    }
  }

  lemma {:induction false} WithoutTwice(d: seq<Stage>, x: set<StageId>, y: set<StageId>)
    ensures Without(Without(d, x), y) == Without(d, x + y)
  {
    if d != [] {
      WithoutTwice(d[1..], x, y);
      if d[0].id !in x {
        assert ([d[0]] + Without(d[1..], x))[1..] == Without(d[1..], x);
      } else {
        assert [] + Without(d[1..], x) == Without(d[1..], x);
      }
    }
  }

  lemma {:induction false} ReadyMembers(d: seq<Stage>, done: set<StageId>)
    ensures forall s :: s in Ready(d, done) <==> s in d && IsReady(s, done)
    ensures DistinctIds(d) ==> DistinctIds(Ready(d, done))
  {
    if d != [] {
      ReadyMembers(d[1..], done);
      assert d == [d[0]] + d[1..];
      if DistinctIds(d) {
        var r := Ready(d[1..], done);
        forall j | 0 <= j < |r| ensures r[j].id != d[0].id { assert r[j] in r; }
      }
    }
  }

  /** `_chunk` cuts the list, in order, into non-empty pieces of at most `size`; all but the last are full. */
  lemma {:induction false} ChunkPartitions(items: seq<Stage>, size: nat)
    requires size > 0
    ensures Flatten(Chunk(items, size)) == items
    ensures forall i | 0 <= i < |Chunk(items, size)| :: 0 < |Chunk(items, size)[i]| <= size
    ensures forall i | 0 <= i < |Chunk(items, size)| - 1 :: |Chunk(items, size)[i]| == size
    decreases |items|
  {
    if |items| > size {
      ChunkPartitions(items[size..], size);
      assert Chunk(items, size)[1..] == Chunk(items[size..], size);
      assert items == items[..size] + items[size..];
    } else if items != [] {
      assert Flatten([items]) == items + Flatten([]) == items;
    }
  }

  lemma {:induction false} StartTasksStartsAll<A>(batch: seq<Stage>)
    ensures StartTasks<A>(batch).Keys == Ids(batch)
    ensures forall id | id in StartTasks<A>(batch) ::
      var t := StartTasks<A>(batch)[id]; t.stage in batch && t.stage.id == id && t.phase == Attempting(1)
  {
    if batch != [] {
      StartTasksStartsAll<A>(batch[..|batch| - 1]);
      assert batch == batch[..|batch| - 1] + [batch[|batch| - 1]];
    }
  }

  // ----- the invariant of every reachable state -----

  /** Everything started in the current wave and not yet recorded. */
  function InFlight<A>(s: State<A>): seq<Stage> { s.batch + Flatten(s.queue) }

  ghost predicate Shape<A>(p: nat, d: seq<Stage>, s: State<A>) {
    && s.remaining == Without(d, s.completed)
    && s.artifacts.Keys == s.completed == s.metrics.Keys
    && (forall st | st in s.batch :: st.id in s.tasks)
    && |s.batch| <= p
    && (forall i | 0 <= i < |s.queue| :: 0 < |s.queue[i]| <= p)
    && DistinctIds(InFlight(s))
    && (forall st | st in InFlight(s) :: st in d && st.id !in s.completed && IsReady(st, s.completed))
    && (forall id | id in s.tasks :: s.tasks[id].stage in s.batch && s.tasks[id].stage.id == id)
  }

  /** `g` is the dependency graph of the stages in `d`. */
  ghost predicate Fits(d: seq<Stage>, g: Graph) {
    DistinctIds(d) && g.Keys == Ids(d) && forall s | s in d :: g[s.id] == s.deps
  }

  ghost predicate Halted<A>(s: State<A>) {
    match s.status
    case Active => true
    case Finished => s.remaining == [] && InFlight(s) == []
    case Unresolved(ids) =>
      && s.remaining != [] && InFlight(s) == [] && Ready(s.remaining, s.completed) == []
      && ids == Sort(IdList(s.remaining))
    case Failed(id) => id in s.tasks && s.tasks[id].phase.Exhausted?
  }

  /** The attempt of a task is within its budget, and the events so far have spent the ones before. */
  ghost predicate TaskCounts<A>(events: seq<Event<A>>, id: StageId, t: Task<A>) {
    && 1 <= t.phase.attempt <= MaxAttempts(t.stage)
    && (t.phase.BackingOff? ==> t.phase.attempt < MaxAttempts(t.stage))
    && (t.phase.Exhausted? ==> t.phase.attempt == MaxAttempts(t.stage))
    && Dispatches(events, id) == Spent(t.phase)
    && Successes(events, id) == if t.phase.Succeeded? then 1 else 0
  }

  ghost predicate Counts<A>(events: seq<Event<A>>, s: State<A>) {
    && (forall id | id in s.tasks :: TaskCounts(events, id, s.tasks[id]))
    && (forall id | id in s.completed && id in s.metrics ::
         Successes(events, id) == 1 && Dispatches(events, id) == s.metrics[id])
    && (forall id | id !in s.tasks && id !in s.completed :: Dispatches(events, id) == 0 == Successes(events, id))
  }

  ghost predicate WithinBudget<A>(d: seq<Stage>, s: State<A>) {
    forall st | st in d && st.id in s.metrics :: 1 <= s.metrics[st.id] <= MaxAttempts(st)
  }

  ghost predicate Levels<A>(g: Graph, events: seq<Event<A>>, s: State<A>) {
    var w := Waves(events);
    && s.completed + Ids(InFlight(s)) == Level(g, w)
    && (w > 0 ==> Level(g, w - 1) <= s.completed)
    && (w > 0 ==> Level(g, w - 1) < Level(g, w))
  }

  ghost predicate Inv<A>(p: nat, d: seq<Stage>, g: Graph, events: seq<Event<A>>, s: State<A>) {
    Fits(d, g) && Shape(p, d, s) && Halted(s) && Counts(events, s) && WithinBudget(d, s) && Levels(g, events, s)
  }

  lemma {:induction false} InitShape<A>(p: nat, plan: seq<Stage>)
    requires p > 0
    ensures Shape(p, DictValues(plan), Init<A>(plan)) && InFlight(Init<A>(plan)) == []
  {
    KeepAll(DictValues(plan));
    assert InFlight(Init<A>(plan)) == [];
  }

  lemma {:induction false} InitInv<A>(p: nat, plan: seq<Stage>)
    requires p > 0
    ensures Inv<A>(p, DictValues(plan), PlanGraph(plan), [], Init(plan))
  {
    PlanGraphKeepsDeps(plan);
    InitShape<A>(p, plan);
    assert Levels<A>(PlanGraph(plan), [], Init(plan));
    assert Counts<A>([], Init(plan));
  }

  lemma {:induction false} KeepAll(d: seq<Stage>)
    ensures Without(d, {}) == d
  {
    if d != [] { KeepAll(d[1..]); }
  }

  lemma {:induction false} InFlightMembers<A>(s: State<A>)
    ensures forall st | st in s.batch :: st in InFlight(s)
    ensures Ids(InFlight(s)) == Ids(s.batch) + Ids(Flatten(s.queue))
    ensures DistinctIds(InFlight(s)) ==> Ids(s.batch) !! Ids(Flatten(s.queue))
  {
    var b, f := s.batch, Flatten(s.queue);
    assert forall st :: st in b + f <==> st in b || st in f;
    if DistinctIds(b + f) {
      forall i, j | 0 <= i < |b| && 0 <= j < |f| ensures b[i].id != f[j].id {
        assert (b + f)[i] == b[i] && (b + f)[|b| + j] == f[j];
      }
    }
  }

  lemma {:induction false} QuietEventKeepsCounts<A>(events: seq<Event<A>>, e: Event<A>)
    requires !e.Succeed? && !e.Fail?
    ensures forall id :: Dispatches(events + [e], id) == Dispatches(events, id)
    ensures forall id :: Successes(events + [e], id) == Successes(events, id)
    ensures Waves(events + [e]) == Waves(events) + if e.StartWave? then 1 else 0
  {
  }

  lemma {:induction false} StartWaveShape<A>(p: nat, d: seq<Stage>, s: State<A>, s': State<A>)
    requires p > 0 && DistinctIds(d) && Shape(p, d, s) && Apply(p, s, StartWave) == Some(s')
    ensures Shape(p, d, s') && InFlight(s') == Ready(s.remaining, s.completed) && InFlight(s) == []
  {
    ChunkPartitions(Ready(s.remaining, s.completed), p);
    WithoutMembers(d, s.completed);
    ReadyMembers(s.remaining, s.completed);
  }

  lemma {:induction false} StartWaveLevels<A>(p: nat, d: seq<Stage>, g: Graph, s: State<A>, s': State<A>, w: nat)
    requires p > 0 && Fits(d, g) && Shape(p, d, s) && Apply(p, s, StartWave) == Some(s')
    requires s.completed == Level(g, w)
    ensures s.completed + Ids(Ready(s.remaining, s.completed)) == Level(g, w + 1)
    ensures Level(g, w) < Level(g, w + 1)
  {
    var ready := Ready(s.remaining, s.completed);
    WithoutMembers(d, s.completed);
    ReadyMembers(s.remaining, s.completed);
    LevelStep(g, w);
    forall id | id in Level(g, w + 1) && id !in s.completed ensures id in Ids(ready) {
      var st :| st in d && st.id == id;
      assert st in ready;
    }
    forall st | st in ready ensures st.id in Level(g, w + 1) {
      assert st in d && g[st.id] == st.deps;
    }
    assert ready[0] in ready && ready[0].id !in Level(g, w);
  }

  lemma {:induction false} StartWaveKeepsInv<A>(
    p: nat, d: seq<Stage>, g: Graph, events: seq<Event<A>>, s: State<A>, s': State<A>)
    requires p > 0 && Inv(p, d, g, events, s) && Apply(p, s, StartWave) == Some(s')
    ensures Inv(p, d, g, events + [StartWave], s')
  {
    QuietEventKeepsCounts(events, StartWave);
    StartWaveShape(p, d, s, s');
    StartWaveKeepsLevels(p, d, g, events, s, s');
  }

  lemma {:induction false} StartWaveKeepsLevels<A>(
    p: nat, d: seq<Stage>, g: Graph, events: seq<Event<A>>, s: State<A>, s': State<A>)
    requires p > 0 && Fits(d, g) && Shape(p, d, s) && Levels(g, events, s) && Apply(p, s, StartWave) == Some(s')
    requires InFlight(s') == Ready(s.remaining, s.completed)
    ensures Levels(g, events + [StartWave], s')
  {
    var w := Waves(events);
    AllCompletedLevel(g, events, s);
    StartWaveLevels(p, d, g, s, s', w);
    OneMoreWave(events);
    NextLevels(g, w, s.completed, Ids(InFlight(s')), s', events + [StartWave]);
  }

  lemma {:induction false} AllCompletedLevel<A>(g: Graph, events: seq<Event<A>>, s: State<A>)
    requires Levels(g, events, s) && s.batch == [] && s.queue == []
    ensures s.completed == Level(g, Waves(events))
  {
    assert Ids(InFlight(s)) == {};
  }

  lemma {:induction false} OneMoreWave<A>(events: seq<Event<A>>)
    ensures Waves(events + [StartWave]) == Waves(events) + 1
  {
    assert (events + [StartWave])[..|events|] == events;
  }

  lemma {:induction false} NextLevels<A>(
    g: Graph, w: nat, done: set<StageId>, flight: set<StageId>, s: State<A>, events: seq<Event<A>>)
    requires Waves(events) == w + 1 && s.completed == done == Level(g, w) && Ids(InFlight(s)) == flight
    requires done + flight == Level(g, w + 1) && Level(g, w) < Level(g, w + 1)
    ensures Levels(g, events, s)
  {
  }

  // Halting only changes the status; a task step only changes the phase of one task.

  lemma {:induction false} StatusChangeKeepsShape<A>(p: nat, d: seq<Stage>, s: State<A>, st: Status)
    requires Shape(p, d, s)
    ensures Shape(p, d, s.(status := st))
  {
  }

  lemma {:induction false} StatusChangeKeepsCounts<A>(events: seq<Event<A>>, e: Event<A>, s: State<A>, st: Status)
    requires Counts(events, s) && !e.Succeed? && !e.Fail?
    ensures Counts(events + [e], s.(status := st))
  {
  }

  lemma {:induction false} HaltEffect<A>(p: nat, s: State<A>, e: Event<A>, s': State<A>)
    requires p > 0 && Halted(s) && Apply(p, s, e) == Some(s')
    requires e.ReportUnresolved? || e.Complete? || e.Raise?
    ensures s' == s.(status := s'.status) && Halted(s')
  {
  }

  lemma {:induction false} HaltKeepsInv<A>(
    p: nat, d: seq<Stage>, g: Graph, events: seq<Event<A>>, s: State<A>, e: Event<A>, s': State<A>)
    requires p > 0 && Inv(p, d, g, events, s) && Halted(s')
    requires e.ReportUnresolved? || e.Complete? || e.Raise?
    requires s' == s.(status := s'.status)
    ensures Inv(p, d, g, events + [e], s')
  {
    StatusChangeKeepsShape(p, d, s, s'.status);
    StatusChangeKeepsCounts(events, e, s, s'.status);
    SameUnionKeepsLevels(g, events, e, s, s');
  }

  lemma {:induction false} StartBatchShape<A>(p: nat, d: seq<Stage>, s: State<A>, s': State<A>)
    requires p > 0 && Shape(p, d, s) && Apply(p, s, StartBatch) == Some(s')
    ensures Shape(p, d, s') && InFlight(s') == InFlight(s)
  {
    StartTasksStartsAll<A>(s.queue[0]);
    BatchLeavesQueue(s, s');
    forall i | 0 <= i < |s'.queue| ensures 0 < |s'.queue[i]| <= p { assert s'.queue[i] == s.queue[i + 1]; }
  }

  lemma {:induction false} StartBatchTasks<A>(p: nat, d: seq<Stage>, s: State<A>, s': State<A>)
    requires p > 0 && Shape(p, d, s) && Apply(p, s, StartBatch) == Some(s')
    ensures s.tasks == map[] && s'.tasks.Keys !! s.completed
    ensures forall id | id in s'.tasks :: s'.tasks[id].phase == Attempting(1)
  {
    StartTasksStartsAll<A>(s.queue[0]);
    BatchLeavesQueue(s, s');
    InFlightMembers(s');
    forall id | id in s'.tasks ensures id !in s.completed {
      assert s'.tasks[id].stage in InFlight(s');
    }
  }

  lemma {:induction false} BatchLeavesQueue<A>(s: State<A>, s': State<A>)
    requires s.batch == [] && s.queue != [] && s'.batch == s.queue[0] && s'.queue == s.queue[1..]
    ensures InFlight(s') == InFlight(s)
  {
  }

  lemma {:induction false} StartBatchKeepsInv<A>(
    p: nat, d: seq<Stage>, g: Graph, events: seq<Event<A>>, s: State<A>, s': State<A>)
    requires p > 0 && Inv(p, d, g, events, s) && Apply(p, s, StartBatch) == Some(s')
    ensures Inv(p, d, g, events + [StartBatch], s')
  {
    StartBatchShape(p, d, s, s');
    StartBatchTasks(p, d, s, s');
    StartBatchCounts(events, s, s');
    SameUnionKeepsLevels(g, events, StartBatch, s, s');
  }

  lemma {:induction false} StartBatchCounts<A>(events: seq<Event<A>>, s: State<A>, s': State<A>)
    requires Counts(events, s) && s.tasks == map[] && s' == s.(batch := s'.batch, queue := s'.queue, tasks := s'.tasks)
    requires s'.tasks.Keys !! s.completed && forall id | id in s'.tasks :: s'.tasks[id].phase == Attempting(1)
    ensures Counts(events + [StartBatch], s')
  {
    QuietEventKeepsCounts(events, StartBatch);
  }

  ghost predicate TaskStep<A>(s: State<A>, e: Event<A>, s': State<A>) {
    && (e.Succeed? || e.Fail? || e.Wake?)
    && e.id in s.tasks && e.id in s'.tasks
    && s' == s.(tasks := s.tasks[e.id := s'.tasks[e.id]])
    && s'.tasks[e.id].stage == s.tasks[e.id].stage && PhaseStep(s.tasks[e.id], e, s'.tasks[e.id].phase)
  }

  ghost predicate PhaseStep<A>(t: Task<A>, e: Event<A>, ph: Phase<A>) {
    match e
    case Succeed(_, a) => t.phase.Attempting? && ph == Succeeded(a, t.phase.attempt)
    case Fail(_) => t.phase.Attempting? && ph == AfterFailure(t)
    case Wake(_) => t.phase.BackingOff? && ph == Attempting(t.phase.attempt + 1)
    case _ => false
  }

  lemma {:induction false} TaskStepEffect<A>(p: nat, s: State<A>, e: Event<A>, s': State<A>)
    requires p > 0 && Apply(p, s, e) == Some(s')
    requires e.Succeed? || e.Fail? || e.Wake?
    ensures TaskStep(s, e, s')
  {
  }

  lemma {:induction false} TaskStepShape<A>(p: nat, d: seq<Stage>, s: State<A>, e: Event<A>, s': State<A>)
    requires Shape(p, d, s) && TaskStep(s, e, s')
    ensures Shape(p, d, s') && InFlight(s') == InFlight(s)
    ensures s.tasks.Keys !! s.completed
  {
    TasksNotCompleted(p, d, s);
  }

  lemma {:induction false} CountOneEvent<A>(events: seq<Event<A>>, e: Event<A>, id: StageId)
    ensures Dispatches(events + [e], id) ==
      Dispatches(events, id) + if (e.Succeed? || e.Fail?) && e.id == id then 1 else 0
    ensures Successes(events + [e], id) == Successes(events, id) + if e.Succeed? && e.id == id then 1 else 0
  {
  }

  lemma {:induction false} TaskStepCounts<A>(events: seq<Event<A>>, s: State<A>, e: Event<A>, s': State<A>)
    requires Counts(events, s) && TaskStep(s, e, s') && s.tasks.Keys !! s.completed
    ensures Counts(events + [e], s')
  {
    forall id
      ensures id != e.id ==> Dispatches(events + [e], id) == Dispatches(events, id)
      ensures id != e.id ==> Successes(events + [e], id) == Successes(events, id)
    {
      CountOneEvent(events, e, id);
    }
    OneTaskCounts(events, e, s.tasks[e.id], s'.tasks[e.id]);
  }

  lemma {:induction false} OneTaskCounts<A>(events: seq<Event<A>>, e: Event<A>, t: Task<A>, t': Task<A>)
    requires e.Succeed? || e.Fail? || e.Wake?
    requires TaskCounts(events, e.id, t) && t'.stage == t.stage && PhaseStep(t, e, t'.phase)
    ensures TaskCounts(events + [e], e.id, t')
  {
    CountOneEvent(events, e, e.id);
  }

  lemma {:induction false} TasksNotCompleted<A>(p: nat, d: seq<Stage>, s: State<A>)
    requires Shape(p, d, s)
    ensures s.tasks.Keys !! s.completed
    ensures forall id | id in s.tasks :: s.tasks[id].stage in InFlight(s)
  {
  }

  lemma {:induction false} TaskStepHalted<A>(s: State<A>, e: Event<A>, s': State<A>)
    requires Halted(s) && TaskStep(s, e, s')
    ensures Halted(s')
  {
  }

  lemma {:induction false} TaskStepKeepsInv<A>(
    p: nat, d: seq<Stage>, g: Graph, events: seq<Event<A>>, s: State<A>, e: Event<A>, s': State<A>)
    requires p > 0 && Inv(p, d, g, events, s) && TaskStep(s, e, s')
    ensures Inv(p, d, g, events + [e], s')
  {
    TaskStepShape(p, d, s, e, s');
    TaskStepCounts(events, s, e, s');
    TaskStepHalted(s, e, s');
    SameUnionKeepsLevels(g, events, e, s, s');
  }

  lemma {:induction false} GatherEffect<A>(p: nat, s: State<A>, s': State<A>)
    requires p > 0 && Apply(p, s, Gather) == Some(s')
    ensures s.status == s'.status == Active && forall id | id in s.tasks :: s.tasks[id].phase.Succeeded?
    ensures s' == Record(s)
  {
  }

  lemma {:induction false} SuffixOfFlight<A>(s: State<A>)
    requires DistinctIds(InFlight(s))
    ensures DistinctIds(Flatten(s.queue))
    ensures forall st | st in Flatten(s.queue) :: st in InFlight(s) && st.id !in Ids(s.batch)
  {
    var f := Flatten(s.queue);
    forall i, j | 0 <= i < j < |f| ensures f[i].id != f[j].id {
      assert InFlight(s)[|s.batch| + i] == f[i] && InFlight(s)[|s.batch| + j] == f[j];
    }
    InFlightMembers(s);
    forall st | st in f ensures st.id !in Ids(s.batch) { assert st.id in Ids(f); }
  }

  lemma {:induction false} TaskIds<A>(p: nat, d: seq<Stage>, s: State<A>)
    requires Shape(p, d, s)
    ensures Ids(s.batch) == s.tasks.Keys
  {
  }

  lemma {:induction false} StillReady(st: Stage, done: set<StageId>, more: set<StageId>)
    requires IsReady(st, done)
    ensures IsReady(st, done + more)
  {
  }

  lemma {:induction false} GatherFlight<A>(p: nat, d: seq<Stage>, s: State<A>, st: Stage)
    requires Shape(p, d, s) && st in Flatten(s.queue)
    ensures st in d && st.id !in s.completed + s.tasks.Keys && IsReady(st, s.completed + s.tasks.Keys)
  {
    SuffixOfFlight(s);
    TaskIds(p, d, s);
    assert st in InFlight(s);
    StillReady(st, s.completed, s.tasks.Keys);
  }

  lemma {:induction false} GatherShape<A>(p: nat, d: seq<Stage>, s: State<A>, s': State<A>)
    requires Shape(p, d, s) && (forall id | id in s.tasks :: s.tasks[id].phase.Succeeded?) && s' == Record(s)
    ensures Shape(p, d, s') && InFlight(s') == Flatten(s.queue)
  {
    SuffixOfFlight(s);
    WithoutTwice(d, s.completed, s.tasks.Keys);
    RecordedKeys(s);
    assert InFlight(s') == Flatten(s.queue);
    GatherFlightAll(p, d, s);
    QueueOnlyShape(p, d, s');
  }

  lemma {:induction false} RecordedKeys<A>(s: State<A>)
    requires forall id | id in s.tasks :: s.tasks[id].phase.Succeeded?
    requires s.artifacts.Keys == s.completed == s.metrics.Keys
    ensures Record(s).artifacts.Keys == Record(s).completed == Record(s).metrics.Keys
  {
  }

  /** Between batches the shape is about the queue alone. */
  lemma {:induction false} QueueOnlyShape<A>(p: nat, d: seq<Stage>, s: State<A>)
    requires s.batch == [] && s.tasks == map[] && s.remaining == Without(d, s.completed)
    requires s.artifacts.Keys == s.completed == s.metrics.Keys
    requires forall i | 0 <= i < |s.queue| :: 0 < |s.queue[i]| <= p
    requires DistinctIds(Flatten(s.queue)) && InFlight(s) == Flatten(s.queue)
    requires forall st | st in Flatten(s.queue) :: st in d && st.id !in s.completed && IsReady(st, s.completed)
    ensures Shape(p, d, s)
  {
  }

  lemma {:induction false} GatherFlightAll<A>(p: nat, d: seq<Stage>, s: State<A>)
    requires Shape(p, d, s)
    ensures forall st | st in Flatten(s.queue) ::
      st in d && st.id !in s.completed + s.tasks.Keys && IsReady(st, s.completed + s.tasks.Keys)
  {
    forall st | st in Flatten(s.queue)
      ensures st in d && st.id !in s.completed + s.tasks.Keys && IsReady(st, s.completed + s.tasks.Keys)
    {
      GatherFlight(p, d, s, st);
    }
  }

  lemma {:induction false} SameUnionKeepsLevels<A>(
    g: Graph, events: seq<Event<A>>, e: Event<A>, s: State<A>, s': State<A>)
    requires Levels(g, events, s) && !e.StartWave?
    requires s.completed <= s'.completed
    requires s'.completed + Ids(InFlight(s')) == s.completed + Ids(InFlight(s))
    ensures Levels(g, events + [e], s')
  {
  }

  lemma {:induction false} GatherLevels<A>(s: State<A>, s': State<A>)
    requires Ids(s.batch) == s.tasks.Keys
    requires s'.completed == s.completed + s.tasks.Keys && InFlight(s') == Flatten(s.queue)
    ensures s'.completed + Ids(InFlight(s')) == s.completed + Ids(InFlight(s))
  {
  }

  lemma {:induction false} GatherCounts<A>(events: seq<Event<A>>, s: State<A>, s': State<A>)
    requires Counts(events, s) && s.completed == s.metrics.Keys
    requires (forall id | id in s.tasks :: s.tasks[id].phase.Succeeded?) && s' == Record(s)
    ensures Counts(events + [Gather], s')
  {
    QuietEventKeepsCounts(events, Gather);
  }

  lemma {:induction false} GatherBudget<A>(p: nat, d: seq<Stage>, events: seq<Event<A>>, s: State<A>, s': State<A>)
    requires DistinctIds(d) && Shape(p, d, s) && Counts(events, s) && WithinBudget(d, s)
    requires (forall id | id in s.tasks :: s.tasks[id].phase.Succeeded?) && s' == Record(s)
    ensures WithinBudget(d, s')
  {
    TasksNotCompleted(p, d, s);
    forall st | st in d && st.id in s'.metrics ensures 1 <= s'.metrics[st.id] <= MaxAttempts(st) {
      if st.id in s.tasks {
        assert s.tasks[st.id].stage in InFlight(s);
        assert s.tasks[st.id].stage in d;
        assert s.tasks[st.id].stage == st;
        assert s'.metrics[st.id] == s.tasks[st.id].phase.attempt;
      } else {
        assert s'.metrics[st.id] == s.metrics[st.id];
      }
    }
  }

  lemma {:induction false} GatherKeepsInv<A>(
    p: nat, d: seq<Stage>, g: Graph, events: seq<Event<A>>, s: State<A>, s': State<A>)
    requires Inv(p, d, g, events, s) && s.status == s'.status == Active
    requires (forall id | id in s.tasks :: s.tasks[id].phase.Succeeded?) && s' == Record(s)
    ensures Inv(p, d, g, events + [Gather], s')
  {
    GatherShape(p, d, s, s');
    GatherCounts(events, s, s');
    GatherBudget(p, d, events, s, s');
    TaskIds(p, d, s);
    GatherLevels(s, s');
    SameUnionKeepsLevels(g, events, Gather, s, s');
  }

  lemma {:induction false} StepKeepsInv<A>(
    p: nat, d: seq<Stage>, g: Graph, events: seq<Event<A>>, s: State<A>, e: Event<A>, s': State<A>)
    requires p > 0 && Inv(p, d, g, events, s) && Apply(p, s, e) == Some(s')
    ensures Inv(p, d, g, events + [e], s')
  {
    if e.StartWave? {
      StartWaveKeepsInv(p, d, g, events, s, s');
    } else if e.StartBatch? {
      StartBatchKeepsInv(p, d, g, events, s, s');
    } else if e.Gather? {
      GatherEffect(p, s, s');
      GatherKeepsInv(p, d, g, events, s, s');
    } else if e.ReportUnresolved? || e.Complete? || e.Raise? {
      HaltEffect(p, s, e, s');
      HaltKeepsInv(p, d, g, events, s, e, s');
    } else {
      TaskStepEffect(p, s, e, s');
      TaskStepKeepsInv(p, d, g, events, s, e, s');
    }
  }

  /** The last step of an execution. */
  lemma {:induction false} LastStep<A>(p: nat, plan: seq<Stage>, events: seq<Event<A>>)
    requires p > 0 && events != [] && Exec(p, plan, events).Some?
    ensures var init, e := events[..|events| - 1], events[|events| - 1];
      && events == init + [e] && Exec(p, plan, init).Some?
      && Apply(p, Exec(p, plan, init).value, e) == Exec(p, plan, events)
  {
  }

  lemma {:induction false} ReachableInv<A>(p: nat, plan: seq<Stage>, events: seq<Event<A>>)
    requires p > 0 && Exec(p, plan, events).Some?
    ensures Inv(p, DictValues(plan), PlanGraph(plan), events, Exec(p, plan, events).value)
    decreases |events|
  {
    if events == [] {
      InitInv<A>(p, plan);
    } else {
      var init, e := events[..|events| - 1], events[|events| - 1];
      LastStep(p, plan, events);
      ReachableInv(p, plan, init);
      StepKeepsInv(
        p, DictValues(plan), PlanGraph(plan), init, Exec(p, plan, init).value, e, Exec(p, plan, events).value);
    }
  }
}
