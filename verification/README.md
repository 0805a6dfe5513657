# Verified model of the Langbridge federated query engine

Langbridge answers one SQL query over tables that live in several sources. Its engine plans the
query (`langbridge/federation/planner`), pushes filters and columns into one scan per table, runs
the scans and a local stage as a dependency graph with retries and bounded parallelism
(`langbridge/federation/executor/scheduler.py`), and keeps stage outputs in a store that later runs
may reuse (`artifact_store.py`, `cache_context.py`, `stage_executor.py`). This project models that
engine in Dafny and proves that the parts compose. For a run of an answerable query, on any store a
history can leave behind, with any parallelism, any order in which the tasks of a batch are
dispatched and complete, anything that happens between asking a source and its answer, any transient
failures, and any runs of other plans and dataset revisions in between: when the run finishes, the
artifact of its result stage holds the value of the original query over the source tables; when it
fails, all three attempts of one stage were made to fail; and it never ends with unresolved
dependencies (`EndToEnd.EveryInterleavingAnswers`). A second run of a cacheable plan on the same
bindings never fails and returns the very artifacts of the first
(`EndToEnd.SecondRunRepeatsTheFirst`). Pushing filters below outer joins can change an answer, and
the condition under which it does not is exact (`PushdownExact.SafeIffSelectionKept`). The
imperative run loop follows one of those interleavings, and `FederatedQueryService.Execute` puts it
behind the planner. Three satellites are modelled as well: nested API records
(`langbridge/connectors/base/resource_paths.py`), the greedy join order, and the metric rewrite of
unified semantic models.

## The parts

| file | what it models |
|---|---|
| `Prelude.dfy` | options and results, Python's string order, `sorted`, `strip` |
| `Sql.dfy` | the SQL fragment: expressions under three-valued logic, left-deep joins, WHERE, and an uninterpreted part above WHERE |
| `JoinFilter.dfy`, `JoinFilterExact.dfy` | keeping some tuples of each table before a join chain, with a test on the joined rows after it: the exact condition |
| `Projection.dfy` | the columns a scan must return |
| `Renderer.dfy` | rewriting tables and qualifiers for the local stage |
| `Plans.dfy`, `Planner.dfy` | subplans and stages, the optimizer and the physical planner |
| `PushdownProperties.dfy`, `PushdownExact.dfy` | why nothing is lost, and exactly when something would be |
| `Dag.dfy`, `Scheduler.dfy`, `SchedulerProperties.dfy` | dependency graphs; the scheduler as a transition system over all interleavings |
| `CacheContext.dfy`, `Store.dfy`, `Execution.dfy` | cache descriptors, the artifact store, `execute_stage` |
| `CacheMeaning.dfy`, `CacheHistory.dfy`, `CacheProperties.dfy` | what a cache key denotes; the invariant of whole histories; taint, reruns, new revisions |
| `Interleaving.dfy` | the scheduler and the store together, step by step |
| `Rerun.dfy` | a second run of a plan, along every path |
| `Engine.dfy` | the run loop, which follows one path of `Interleaving.dfy` |
| `StagePlans.dfy`, `PlanIdentity.dfy` | the stages of a planned query and what they are worth; what a plan id fixes |
| `EndToEnd.dfy` | planning, scheduling, execution and caching together; the service |
| `Flattening.dfy`, `FlattenExact.dfy`, `Descent.dfy`, `ChildResources.dfy` | API records: rows and exactly when they can be undone, path descent, child resources |
| `JoinOrder.dfy` | the parser's join list and the greedy order |
| `MetricRewrite.dfy` | prefixing dataset references, one key after the other |

## Assumptions

They are hypotheses of the lemmas, each a predicate with a name:

- `GoodWorld`: the hash of a descriptor's inputs and the hash of a table are injective, and a cache
  key is not blank. The code uses SHA-256.
- `Coherent`: for a binding with a revision policy, the contents of its table are those its stated
  freshness key stands for. Local SQL is a function of what it reads; transient failures are events of
  their own.
- `SqlWorld`: a source evaluates a scan on the table that the SQL of the scan names there, and the
  local engine evaluates a query when all its tables are registered under their bare names.
- `AllLocated`: under the name that a binding gives its table, part by part, or under its subquery,
  the source of the binding holds that table.
- A run sees the datasets as they were when it began. The code reads its sources live, so a table
  that is revised in the middle of a run could be stored under the key of its old revision; the
  histories exclude that.
- `GoodCatalog`: file names keep the manifests of different stages apart. They do when all names are
  plain (`CacheHistory.PlainNamesAreSeparate`), and `Store.StageIdsCollideIff` says exactly when two
  stage ids share a manifest.
- `CanBegin`: the plan of a run agrees with the plan its id stands for up to the SQL text of its
  scans, as long as the source answers both texts alike. The id covers source, connector, schema, table
  and catalog of every table (`PlanIdentity.SamePlanIdIff`), and with them the stages, when no binding
  overrides them (`PlanIdentity.PlainBindingsFixStages`). It does not cover the overrides nor the source
  dialects: under one id the stages are the same exactly when each table is scanned from the same
  source with the same pushed conjuncts (`PlanIdentity.PlanIdFixesStagesIff`). For sources that evaluate
  SQL, overrides that are re-pointed under one id keep the assumption
  (`PlanIdentity.ReboundPlansAreAlike`).
- Runs of one plan in one workspace do not overlap; runs of different plans may.
- `PlainQuery` and `OwnColumnsOnly`: the table a column names is an alias of the query, a schema or
  catalog in front of it does not lead to another alias, and an unqualified column in a pushed
  conjunct belongs to the alias the conjunct is pushed to.
- `SafePushdown`: the optimizer does not look at join types when it pushes a conjunct into a scan,
  so this condition is needed. `PushdownExact.LeftJoinIsNullBreaksPushdown` is a request whose answer
  changes, and `PushdownExact.SafeIffSelectionKept` says that the condition is exact. A caller can
  check it by looking for a conjunct that cannot hold on null-extended rows, such as a comparison
  with a column of the aliases in question (`PushdownProperties.StrictRejectsNulls`).
- `RunsWhole`, for a query that is pushed down whole: its source finds the same table under names that
  are the same up to case (`FoundAlike`), and no key or table is called `None`. The code compares
  absent names as that word, so a table registered as `none` passes for one that goes by its own name.

`EndToEnd.ServiceCanBeCalled` builds a catalog and a start state for any request with plain names, so
the preconditions of the service can be met. `EndToEnd.OneCatalogServesAll` builds one catalog for any
number of queries at once, over bindings that override no names: there nothing is assumed of the plan
id but that it does not collide.

The concurrency of a batch is the set of all interleavings of its tasks' steps; what holds of
every path holds of every completion order.

## Model

| member | source | states |
|---|---|---|
| EndToEnd.FederatedQueryService.Execute | langbridge/federation/service.py:51-113 | For an answerable query, split or pushed down whole, the returned artifact holds the value of the original query over the source tables; it is never reported unresolved, and it fails only with a stage all three of whose attempts are among the given faults; the handle names workspace, plan id and result stage, with one to three dispatches of every stage in the plan's order; the store stays in a state a history can reach |
| EndToEnd.EveryInterleavingAnswers | langbridge/federation/executor/scheduler.py:85-103 | Along every path of an answerable query, whatever the order of dispatches and completions, whatever happens while sources are asked, the faults, and the runs and revisions elsewhere: never unresolved; finished means the artifact of the result stage holds the value of the query; failed means three attempts of one stage, all faulted |
| EndToEnd.SecondRunRepeatsTheFirst | langbridge/federation/executor/stage_executor.py:40-62 | After a finished run and any events elsewhere, along every path of a second run of the plan on the same bindings with nothing that rules out caching, whatever the outside world makes fail: the run does not fail, asks no source, records only artifacts of the first run, and all of them when it finishes |
| Interleaving.PathIsSound | langbridge/federation/executor/stage_executor.py:33-143 | Every path, with the lookup of a remote stage and the write of its answer as separate steps, is a run of the scheduler and a history of the store at once, and every artifact recorded so far holds the cold value of its stage |
| Interleaving.FailureIsFaulted | langbridge/federation/executor/scheduler.py:105-124 | When a path ends with a failed stage that has a value, the stage was tried max(1, retry_limit + 1) times and each try was a fault |
| Interleaving.RunningTaskCanAttempt | langbridge/federation/executor/scheduler.py:76-90 | A task the scheduler runs has its dependencies done in the store, so it is never blocked: it can be dispatched, or its source has been asked and may answer |
| StagePlans.FinalStageIsTheQuery | langbridge/federation/planner/physical_planner.py:36-70 | The cold value of `local_compute_final` is the original query over the source tables: the tables that the scans name, alias renaming and input registration compose |
| StagePlans.ScanNamesItsTable | langbridge/federation/planner/optimizer.py:191-235 | The SQL of a scan names the table that its binding locates: each part of the name from the override if there is one, even without a value, and else the binding's own; no catalog when it is to be skipped; the trimmed subquery when there is one |
| StagePlans.FullStageIsTheQuery | langbridge/federation/planner/optimizer.py:82-107 | The only stage of a query that is pushed down whole has the value of the query over the source tables |
| StagePlans.FullPushdownIff | langbridge/federation/planner/optimizer.py:61-80 | A query is pushed down whole if and only if its tables are in one source, which speaks the dialect of the query, and every table goes by its binding's own name |
| StagePlans.NoRewriteKeepsNames | langbridge/federation/planner/optimizer.py:349-389 | A binding that needs no rewriting is scanned under its own name, which is its key and the name the query writes, up to case |
| EndToEnd.NeverUnresolved | langbridge/federation/executor/scheduler.py:81-83 | A run over a plan whose stages are all resolvable, as planned ones are, never ends in unresolved dependencies |
| StagePlans.FinalStageReadsTheScans | langbridge/federation/planner/physical_planner.py:36-62 | The final stage depends on exactly the scans and reads each under its own stage id |
| StagePlans.SchedulerSeesTheStages | langbridge/federation/executor/scheduler.py:70 | A repeated stage id keeps its last definition, so scheduler and executor agree on the stages |
| PlanIdentity.SamePlanIdIff | langbridge/federation/planner/parser.py:294-303 | Requests that differ in bindings and source dialects have the same plan id payload if and only if the bindings agree on source, connector, schema, table and catalog of every table, and both are pushed down whole or neither is |
| PlanIdentity.PlanIdFixesStagesIff | langbridge/federation/planner/physical_planner.py:72-86 | Requests with the same plan id payload that differ in bindings and source dialects have the same stages if and only if each table is scanned from the same source with the same pushed conjuncts |
| PlanIdentity.PlainBindingsFixStages | langbridge/federation/planner/physical_planner.py:10-86 | Requests for the same query whose bindings override no physical names, with the same dialects: the same plan id payload means the same physical plan |
| PlanIdentity.PayloadCoversTheQuery | langbridge/federation/planner/physical_planner.py:72-86 | Different queries, or different table references, never have the same plan id payload, split or pushed down whole |
| PlanIdentity.SamePlanIdSamePlan | langbridge/federation/planner/physical_planner.py:10-86 | Of any two requests, with queries, tables and bindings free, over bindings without overrides and the same dialects: the same payload means the same physical plan |
| PlanIdentity.OverrideKeepsPlanId | langbridge/federation/planner/optimizer.py:221-236 | Another physical name for one table gives other stages under the same plan id payload |
| PlanIdentity.ReboundPlansAreAlike | langbridge/federation/planner/optimizer.py:182-253 | Over sources that evaluate SQL and hold the tables where the bindings say, bindings re-pointed under one plan id, with the same pushed conjuncts, give a plan that a run cannot tell from the old one |
| EndToEnd.ReboundStaysPlanned | langbridge/federation/planner/physical_planner.py:72-86 | A query stays executable after a re-pointing of its bindings that keeps the plan id and the pushed conjuncts |
| EndToEnd.ServiceCanBeCalled | langbridge/federation/service.py:51-113 | For a request with plain names, split or pushed down whole, there are a catalog and an empty-store state that meet all preconditions of the service |
| EndToEnd.OneCatalogServesAll | langbridge/federation/service.py:51-113 | For any number of requests over bindings without overrides one catalog meets the preconditions of the service for all of them, when plan ids do not collide and names are plain |
| EndToEnd.FinishedRunIsComplete | langbridge/federation/executor/scheduler.py:97-103 | A finished run leaves the complete, undisturbed run from which reruns are served |
| StagePlans.FullQueryKeyCoversItsTables | langbridge/federation/executor/cache_context.py:187-199 | When a query is pushed down whole, its stage's cache inputs are exactly the tables the query names, sorted |
| Engine.StageScheduler.Run | langbridge/federation/executor/scheduler.py:62-103 | The loop follows one path with the faults it is given, and stops where the transition system does: with the artifacts and ordered metrics of a finished run, the ids of an unresolved one, or the stage that failed |
| Engine.StageScheduler.ExecuteWithRetry | langbridge/federation/executor/scheduler.py:105-124 | Attempts go on until one succeeds or max(1, retry_limit + 1) are spent; the task ends succeeded with its true attempt count or exhausted |
| Engine.StageScheduler.RunWave | langbridge/federation/executor/scheduler.py:85-95 | A wave that does not fail empties its queue of batches and strictly shrinks `remaining` |
| Engine.RecordResults | langbridge/federation/executor/scheduler.py:91-95 | The recording loop leaves exactly the old artifacts, metrics, completed set and remaining stages, updated by the batch's results |
| Engine.RecordIsGather | langbridge/federation/executor/scheduler.py:90-95 | Recording a batch's results one by one is one step of the transition system |
| Interleaving.UnfaultedAttemptSucceeds | langbridge/federation/executor/stage_executor.py:33-143 | In a run that follows the scheduler, a stage that has a value fails only when the outside world does, executed at once or in two steps |
| Rerun.PathIsListed | langbridge/federation/executor/artifact_store.py:58-87 | Along every path the artifacts recorded so far are those the stages' manifests point at |
| Rerun.SecondRunRepeats | langbridge/federation/executor/stage_executor.py:40-62 | Along every path of a second run of an unchanged, untainted plan every finished task has the output of the first run, no source is asked and the run has not failed |
| SchedulerProperties.SafeInEveryReachableState | langbridge/federation/executor/scheduler.py:70-124 | In every reachable state of every interleaving: running tasks have completed dependencies, at most `stage_parallelism` run, the attempt in progress and the finished dispatches are within the retry budget, and a completed stage is recorded once with its true attempt count |
| SchedulerProperties.UnresolvedReportIsExact | langbridge/federation/executor/scheduler.py:75-83 | The reported ids are sorted, without repeats, and exactly the stages that reach a cycle or a missing stage |
| SchedulerProperties.FinishedMeansResolvable | langbridge/federation/executor/scheduler.py:75-103 | A finished run completed every stage of the plan, and none of them reaches a cycle or a missing stage |
| SchedulerProperties.StageRunsInWaveOfItsRank | langbridge/federation/executor/scheduler.py:75-95 | The wave a stage runs in is the length of its longest dependency chain |
| SchedulerProperties.WavesEqualDepth | langbridge/federation/executor/scheduler.py:75-95 | A finished run took as many waves as the longest chain of the plan is long |
| SchedulerProperties.NeverStuck | langbridge/federation/executor/scheduler.py:75-124 | Every reachable active state has an enabled event |
| SchedulerProperties.RecordedArtifactsWereReturned | langbridge/federation/executor/scheduler.py:91-92 | The artifact recorded for a stage is one that its own dispatch returned |
| SchedulerProperties.FinishedRunIsDenoted | langbridge/federation/executor/scheduler.py:85-103 | Deterministic stages within budget never fail a run, and a finished run's artifacts and metrics are those the plan denotes |
| SchedulerProperties.Confluence | langbridge/federation/executor/scheduler.py:85-103 | Two finished runs of deterministic stages agree on artifacts and ordered metrics, whatever their parallelism and completion order |
| SchedulerProperties.FinishedMetrics | langbridge/federation/executor/scheduler.py:97-103 | The metrics of a finished run are, for each stage of the plan in the plan's order, its id and the number of times it was dispatched |
| Scheduler.ReachableInv | langbridge/federation/executor/scheduler.py:70-103 | Every event sequence keeps the scheduler's invariant: who is in flight, who is completed, counts, budgets and levels |
| Scheduler.ChunkPartitions | langbridge/federation/executor/scheduler.py:127-128 | Chunking cuts the list in order into non-empty pieces of at most the size, all but the last full |
| Dag.ResolvableIsLeastFixedPoint | langbridge/federation/executor/scheduler.py:76-80 | Resolvable stages are the least set closed under "all dependencies are in the set" |
| Dag.UnresolvableIffDoomed | langbridge/federation/executor/scheduler.py:81-83 | A stage is not resolvable if and only if a dependency chain from it reaches a cycle or a stage that is not in the plan |
| Dag.RankIsLongestChain | langbridge/federation/executor/scheduler.py:75-80 | The rank of a resolvable stage is the length of its longest dependency chain |
| CacheHistory.CacheAgreesWithRecomputation | langbridge/federation/executor/stage_executor.py:33-81 | After any history of runs, failures, re-pointed scans, dataset revisions and lost artifacts, whatever `execute_stage` returns, found by the lookup, computed at once, or written after anything else has happened since the lookup, holds the value of that stage of the run's own plan, computed cold on the run's datasets |
| CacheHistory.HistoryKeepsInv | langbridge/federation/executor/artifact_store.py:27-87 | Every history keeps the store invariant: content-addressed artifacts, and cacheable manifests whose artifact is the value their key denotes |
| CacheHistory.PlainNamesAreSeparate | langbridge/federation/executor/artifact_store.py:127-156 | When workspaces, plan ids and stage ids are plain, no two stages share a manifest |
| CacheMeaning.ExecutionIsSound | langbridge/federation/executor/stage_executor.py:33-143 | Executing a stage whose dependencies are done returns its value and records a manifest from which it can be read |
| CacheMeaning.FinishIsSound | langbridge/federation/executor/stage_executor.py:64-81 | Finishing a stage under its descriptor returns its value and records a manifest from which it can be read, whatever a lookup would find by then |
| CacheMeaning.KeyMeansCold | langbridge/federation/executor/cache_context.py:64-102 | The key of a cacheable stage denotes the stage's value on the current datasets |
| CacheMeaning.HitIsCold | langbridge/federation/executor/artifact_store.py:27-53 | A cache hit points at the stage's value, although only keys were compared |
| CacheMeaning.UnfaultedExecutionSucceeds | langbridge/federation/executor/stage_executor.py:64-143 | A stage that has a value and whose dependencies can be read fails only through a fault |
| Execution.AlikeExecution | langbridge/federation/executor/stage_executor.py:33-143 | Executing a stage of a plan whose scans a source answers alike is executing that stage of the other plan |
| Execution.AlikeCold | langbridge/federation/executor/stage_executor.py:64-143 | Plans that a run cannot tell apart have the same cold values |
| CacheProperties.CacheableIffUntainted | langbridge/federation/executor/cache_context.py:133-185 | A stage is cacheable if and only if every chain below it ends in inputs that are revision-backed |
| CacheProperties.StoredDescriptorIsUntainted | langbridge/federation/executor/stage_executor.py:145-159 | In any history, what a stage of an undisturbed run stored is cacheable exactly when the stage is untainted |
| CacheProperties.RerunIsServedFromCache | langbridge/federation/executor/stage_executor.py:40-62 | After a complete run, a rerun on the same bindings serves every untainted stage from the cache with the artifact of the first run, in any order, with any faults, and among runs of other plans |
| CacheProperties.SameKeyIffSameSources | langbridge/federation/executor/cache_context.py:149-199 | Two dataset states give a cacheable stage the same key if and only if every table it transitively reads is bound to the same dataset at the same stated revision |
| CacheProperties.NewRevisionMissesExactlyItsDependents | langbridge/federation/executor/stage_executor.py:40-62 | After a complete run and a revision, in a later run among runs of other plans, the first execution of a stage is served from the cache if and only if the stage was untainted and every source it transitively reads is unchanged; and then with the old artifact |
| CacheProperties.NewKeyMissesItsReaders | langbridge/federation/executor/cache_context.py:202-219 | After a complete run only the freshness key of one table is new: the first execution of a stage in the next run is served from the cache if and only if nothing rules out caching it and it does not read that table, directly or through other stages |
| CacheContext.BindingSupportsIffRevisionBacked | langbridge/federation/executor/cache_context.py:202-252 | A binding's input supports caching if and only if its policy is revision and its freshness key is not blank |
| CacheContext.DescribedAlikeIff | langbridge/federation/executor/cache_context.py:202-252 | A revision-backed binding is described like another one if and only if source id, table key, descriptive fields and the stripped freshness key, of the descriptor or else of the metadata, are the same |
| CacheContext.StripTrims | langbridge/federation/executor/cache_context.py:263-265 | Stripping cuts off exactly the white space at both ends |
| CacheContext.LocalCacheableIff | langbridge/federation/executor/cache_context.py:149-185 | A local stage is cacheable if and only if it has dependencies and all of them were cacheable with a key |
| CacheContext.DescribeLocalStage | langbridge/federation/executor/cache_context.py:149-185 | The loop collects one input for each dependency, in sorted order |
| Execution.StageExecutor.ExecuteStage | langbridge/federation/executor/stage_executor.py:33-143 | The method's result and its effect on the store are those of the specification `Execute`: a lookup and, when it misses, the rest |
| Execution.StageExecutor.LookupStage | langbridge/federation/executor/stage_executor.py:40-51 | The first half describes the stage from its dependencies' manifests and finds the stored output with the same key, if there is one |
| Execution.StageExecutor.FinishStage | langbridge/federation/executor/stage_executor.py:64-141 | The second half computes the stage and writes artifact and manifest under the descriptor it is given, or fails and leaves the store as it is |
| Execution.StageExecutor.DependencyCachesOf | langbridge/federation/executor/stage_executor.py:145-159 | The loop reads every dependency's cache descriptor back from its manifest |
| Execution.StageExecutor.ReadInputs | langbridge/federation/executor/stage_executor.py:101-117 | Every input relation is bound to its stage's stored output, or the stage fails |
| Store.ArtifactStore.WriteStageOutput | langbridge/federation/executor/artifact_store.py:55-87 | The store afterwards: the artifact under its content hash, the manifest overwritten, nothing else changed |
| Store.ArtifactStore.GetCachedStageOutput | langbridge/federation/executor/artifact_store.py:27-53 | The lookup returns what the specification says of the store's contents and does not change them |
| Store.WriteThenRead | langbridge/federation/executor/artifact_store.py:55-125 | What was written for a stage is what is read for it, and the store stays content-addressed |
| Store.WriteFrame | langbridge/federation/executor/artifact_store.py:55-87 | Writing one stage's output leaves every other manifest and every stored artifact as it was |
| Store.PlainNamesAreKept | langbridge/federation/executor/artifact_store.py:155-156 | A name is its own file name if and only if it has no slash, no backslash and no two dots in a row |
| Store.StageIdsCollideIff | langbridge/federation/executor/artifact_store.py:127-156 | Another stage id has the same manifest if and only if the file name of the id contains an underscore |
| Store.NamesCollideIff | langbridge/federation/executor/artifact_store.py:155-156 | Another name has the same file name if and only if the file name contains an underscore |
| PushdownProperties.FilterPushdownKeepsSelection | langbridge/federation/planner/optimizer.py:53-59 | With all aliases' conjuncts pushed at once, the unchanged query over the filtered tables has the rows and values it has over the full ones, under the exact condition |
| PushdownProperties.ScansThenLocalIsTheQuery | langbridge/federation/planner/optimizer.py:109-179 | The rewritten query over the scans' outputs is the original query over the tables |
| PushdownProperties.LocalStageSelectsFiltered | langbridge/federation/planner/optimizer.py:109-179 | Safe or not, the rewritten query over the scans' outputs selects what the original selects over the filtered tables |
| PushdownProperties.WhereHoldsIffConjunctsDo | langbridge/federation/planner/parser.py:168-182 | Under three-valued logic a WHERE clause holds if and only if each of its conjuncts does |
| PushdownProperties.WhereImpliesPushedFilters | langbridge/federation/planner/optimizer.py:53-59 | A row that passes WHERE passes, alias by alias, every filter pushed into a scan |
| PushdownProperties.ScanExprMeansTheSame | langbridge/federation/planner/optimizer.py:296-346 | A pushed conjunct, rewritten for the scan, has the value there that it has on the joined row |
| PushdownProperties.ScanColumnsAreBare | langbridge/federation/planner/optimizer.py:325-346 | The filters of a scan mention no schema or catalog, and no alias but that of the scan |
| PushdownProperties.PushedIff | langbridge/federation/planner/optimizer.py:53-59 | A conjunct is pushed into the scan of a table if and only if it mentions its alias and no other, and contains no AND and no function but IN and minus, or the source speaks the dialect of the query |
| PushdownProperties.RewrittenItems | langbridge/federation/planner/sql_renderer.py:37-49 | Every table of the rewritten query is the output of a scan, under its bare stage name and its old alias |
| PushdownProperties.NullRejectingIsSafe | langbridge/federation/planner/optimizer.py:53-59 | Pushdown is safe when each alias with a pushed conjunct is never null-extended, or a pushed conjunct or WHERE as a whole rejects NULL there |
| PushdownProperties.StrictRejectsNulls | langbridge/federation/planner/optimizer.py:53-59 | A conjunct made of comparisons with columns of a group of aliases, under AND and OR, pushed or not, makes WHERE reject the rows in which the whole group is null-extended |
| PushdownExact.LeftJoinIsNullBreaksPushdown | langbridge/federation/planner/optimizer.py:53-59 | A request over two sources whose `IS NULL` on the right of a left join is pushed: the planned local stage over the scans' outputs selects a row, the query selects none |
| PushdownExact.SafeIffSelectionKept | langbridge/federation/planner/optimizer.py:53-59 | Pushdown keeps what the query selects, for all tables and ON predicates, if and only if at every join the filters that could cause new null-extended rows remove nothing, or WHERE, pushed or not, rejects those rows |
| JoinFilterExact.SafeIffRowsKept | langbridge/federation/planner/optimizer.py:53-59 | Filtering before the joins keeps the rows that pass a test implied by it, for all tables and ON predicates, if and only if the chain of join kinds is safe for filters and test |
| JoinFilter.SafeChainKeepsRows | langbridge/federation/planner/optimizer.py:109-154 | A safe chain over filtered tables has exactly the rows, in order, that pass the test over the full tables |
| Projection.ProjectionKeepsSelection | langbridge/federation/planner/optimizer.py:111-113 | The query's rows and values depend only on the columns collected for each alias |
| Projection.ColumnIsReturnedIff | langbridge/federation/planner/optimizer.py:109-113 | A scan returns a column if and only if the query writes it with the alias, or a star or an unqualified column occurs somewhere, or the query mentions nothing of the alias |
| Projection.ExtractRequiredColumns | langbridge/federation/planner/parser.py:140-165 | One pass collects, for every alias, the columns its qualifier names, the star, and whether some column is unqualified |
| Renderer.RewriteKeepsSelection | langbridge/federation/planner/sql_renderer.py:27-49 | Rewriting tables and qualifiers, schemas and catalogs included, keeps the query's rows and values |
| Renderer.RewrittenQueryIsBare | langbridge/federation/planner/sql_renderer.py:27-49 | No column anywhere in the rewritten query has a schema or a catalog left |
| Renderer.AliasQualifierIsKept | langbridge/federation/planner/sql_renderer.py:107-141 | A column qualified only by an alias stays bound to it, whatever other tables and aliases are called |
| Renderer.AliasIsKeptIff | langbridge/federation/planner/sql_renderer.py:107-141 | A column keeps the alias it is written with if and only if its qualifier, with schema and catalog, does not lead to another alias |
| Renderer.WaysToLeadBack | langbridge/federation/planner/sql_renderer.py:107-141 | It does so without a schema, when only one table goes by the alias, or when schema and catalog are those of its table |
| Renderer.RewrittenExprMeansTheSame | langbridge/federation/planner/sql_renderer.py:27-49 | A rewritten expression has the value of the original on every row |
| Renderer.ReboundToTheOnlyCandidate | langbridge/federation/planner/sql_renderer.py:107-141 | A column rebound through the lookup goes to the one alias its qualifier could name |
| Renderer.NamedTableIsFound | langbridge/federation/planner/sql_renderer.py:72-141 | A qualifier that names a table and is rebound is rebound to that table |
| Renderer.QualifiedTableIsFound | langbridge/federation/planner/sql_renderer.py:72-141 | A column whose qualifier, with schema and catalog, names one table of the query and no other is rebound to that table |
| Renderer.BuildTableAliasLookup | langbridge/federation/planner/sql_renderer.py:72-104 | The lookup maps exactly the names that a single alias goes by |
| Renderer.RewriteColumnForStage | langbridge/federation/planner/sql_renderer.py:107-141 | The search over the qualifier's keys gives the specified rebinding |
| Planner.Optimize | langbridge/federation/planner/optimizer.py:34-179 | The subplans and the local SQL are those of the full plan or of the split plan, whichever the bindings call for, and the join order is one the greedy choice allows |
| Planner.PlannedOrderGrows | langbridge/federation/planner/optimizer.py:392-431 | The join order of a query starts at a smallest table, by the row counts known for the tables, and grows by the smaller neighbour |
| Planner.EstimateOfAlias | langbridge/federation/planner/optimizer.py:397-400 | The estimate of an alias is the row count known for its table, if one is |
| Planner.BuildPredicateMap | langbridge/federation/planner/optimizer.py:53-59 | Each alias gets, in order, the conjuncts that mention only it |
| Planner.Build | langbridge/federation/planner/physical_planner.py:10-82 | The loop builds the scan stages, the dependency list and the table inputs of the physical plan |
| Flattening.FlattenRoundTrip | langbridge/connectors/base/resource_paths.py:296-318 | Flattening an object gives exactly one column for each scalar leaf, and splitting the names rebuilds the object |
| FlattenExact.FlattenRoundTripIff | langbridge/connectors/base/resource_paths.py:296-318 | Splitting the column names of a flattened object rebuilds it if and only if the object is clean |
| Flattening.RowRoundTrip | langbridge/connectors/base/resource_paths.py:262-293 | A row has one column for each scalar of the record and of the children asked for, and splitting its names rebuilds that part of the record |
| FlattenExact.RowRoundTripIff | langbridge/connectors/base/resource_paths.py:262-293 | Splitting the names of a row rebuilds the part of the record it keeps if and only if that part is clean |
| Flattening.SplitUndoesJoin | langbridge/connectors/base/resource_paths.py:306 | Splitting a column name gives its segments back if and only if none has two underscores in a row and none but the last ends with one |
| Flattening.UnderscoresCollide | langbridge/connectors/base/resource_paths.py:306 | Two different objects flatten to the same column when a name ends, and another starts, with an underscore |
| Flattening.FlattenMapping | langbridge/connectors/base/resource_paths.py:296-318 | The row that is passed in gets the object's columns written into it, and the call fails if and only if a list is below the object |
| Flattening.MaterializeValue | langbridge/connectors/base/resource_paths.py:262-293 | The row of a record, or a failure exactly when a field asked for holds a list |
| Flattening.FailsIffListAskedFor | langbridge/connectors/base/resource_paths.py:285-290 | A row cannot be made if and only if some field asked for is, or contains, a list |
| Descent.DescentIsNestedWalk | langbridge/connectors/base/resource_paths.py:103-126 | Level-by-level descent visits, in order, what walking each record on its own visits, and fails exactly when some level is empty, mixes lists with other values, or has an identity that is a list or an object |
| Descent.BelowIsNested | langbridge/connectors/base/resource_paths.py:145-215 | Each visited value carries the identity of its innermost identified owner and its own place in its list |
| Descent.NodesStandForValues | langbridge/connectors/base/resource_paths.py:145-215 | Each value found is reached from a record field by field along the path; its parent's identity is the `id` field, neither null nor blank, of the last of its owners below the record that has one, or else the record's, which is its primary key or else its position |
| Descent.RecordIdentity | langbridge/connectors/base/resource_paths.py:145-164 | The identity of a record is its primary key's field unless that is null or blank, and else its position |
| Descent.BadIdIff | langbridge/connectors/base/resource_paths.py:150-160 | An identity cannot be looked up if and only if its field holds a list or an object |
| Descent.RowCarriesItsPlace | langbridge/connectors/base/resource_paths.py:110-125 | The row of a nested value has its parent's identity as `_parent_id`, its place in a list as `_child_index`, and otherwise its own columns |
| Descent.PlacesMatchCardinality | langbridge/connectors/base/resource_paths.py:167-215 | The values found have places in lists if and only if the cardinality is many |
| Descent.WalkFindsNestedValues | langbridge/connectors/base/resource_paths.py:145-215 | Walking the records finds exactly the values nested in them at the path |
| Descent.DescendTraversalNodes | langbridge/connectors/base/resource_paths.py:167-215 | One level: the children in order and their cardinality, or the error the code raises |
| Descent.InitialNodes | langbridge/connectors/base/resource_paths.py:145-164 | One node for each record that is an object, identified by its primary key or its position |
| Descent.MaterializeRows | langbridge/connectors/base/resource_paths.py:90-142 | One row for each value nested at the path, with its parent's identity and its place, and the cardinality of the last level; it succeeds exactly when every level and every row is fine |
| ChildResources.DescriptionsAreExact | langbridge/connectors/base/resource_paths.py:72-87 | A path is described if and only if some record holds an object or a list there; the result is sorted by path without repeats |
| ChildResources.DescriptionsArePrefixClosed | langbridge/connectors/base/resource_paths.py:218-259 | The parent of a described path is the root or described itself |
| ChildResources.LastWriterWins | langbridge/connectors/base/resource_paths.py:230-254 | For each path the dict keeps exactly the description written last |
| ChildResources.CollectChildResources | langbridge/connectors/base/resource_paths.py:218-259 | The dict that is passed in receives the descriptions in traversal order |
| ChildResources.DescribeChildResources | langbridge/connectors/base/resource_paths.py:72-87 | The children of all records, sorted |
| ChildResources.MaterializeResource | langbridge/connectors/base/resource_paths.py:90-142 | The rows, the cardinality and the described children of the values at the path |
| JoinOrder.ChooseJoinOrder | langbridge/federation/planner/optimizer.py:392-431 | The order starts at the first smallest table, then always adds the best connected one or, with none connected, a smallest one; it lists every alias once |
| JoinOrder.StartsSmallest | langbridge/federation/planner/optimizer.py:392-404 | The order starts at the first of the tables with the least estimate, where a table without an estimate counts as a million rows |
| JoinOrder.ChainOrderGrowsASegment | langbridge/federation/planner/optimizer.py:409-431 | Along parser-built joins every prefix is a contiguous piece of the chain, the next table is the piece's smaller neighbour, and the unconnected fallback never fires |
| JoinOrder.ParserOrderGrowsASegment | langbridge/federation/planner/parser.py:67-89 | For the joins the parser builds, every prefix of the order grows by its smaller neighbour and the fallback never fires |
| JoinOrder.OrderOfQuery | langbridge/federation/planner/optimizer.py:392-431 | From FROM and its joins to an order that is a permutation and grows segment by segment |
| JoinOrder.ChainOrderIsDetermined | langbridge/federation/planner/optimizer.py:409-431 | Along parser-built joins the order does not depend on how the set of remaining aliases is iterated |
| JoinOrder.NoJoinsSorted | langbridge/federation/planner/optimizer.py:426-427 | Without joins the order is by row estimate, a million rows where there is none |
| JoinOrder.OrderIsPermutation | langbridge/federation/planner/optimizer.py:406-431 | The order is a permutation of the aliases |
| JoinOrder.BestIsConnected | langbridge/federation/planner/optimizer.py:410-425 | The scan over the joins finds a smallest table connected to the ordered ones, if there is one |
| JoinOrder.CollectJoins | langbridge/federation/planner/parser.py:67-89 | Each join hangs on the alias joined just before it; with distinct aliases the table map is the chain |
| MetricRewrite.SequentialIsRightIffNoCapture | langbridge/semantic/unified_query.py:201-209 | Rewriting key by key equals simultaneous substitution for every text if and only if no key is the prefixed form of an earlier key |
| MetricRewrite.SequentialIsSimultaneous | langbridge/semantic/unified_query.py:203-208 | Under that condition every dataset reference is prefixed exactly once and no inserted text is rewritten |
| MetricRewrite.LongestFirstNeverCaptures | langbridge/semantic/unified_query.py:203 | Longest-first order meets the condition |
| MetricRewrite.SubstituteReplacesMatches | langbridge/semantic/unified_query.py:203-208 | One pass, for any key: exactly the places where key and dot stand at a word boundary, from the left and without overlaps, get the source key and two underscores in front |
| MetricRewrite.ReferenceIsPrefixed | langbridge/semantic/unified_query.py:197-208 | Where a key stands before a dot, the source key and two underscores are put in front of it, and the rest is rewritten alike |
| MetricRewrite.RewriteSourceMetric | langbridge/semantic/unified_query.py:201-209 | The loop computes the sequential rewrite; for identifiers it is the simultaneous one |

## Left out

- SQL text: parsing, printing, transpiling, dialect normalisers and the regex normalisation of portable SQL; the model starts from a syntax tree, and a dialect is a name compared after normalisation.
- CTEs, unions, subqueries in WHERE, USING and NATURAL joins: outside the analysed fragment. Grouping, HAVING, ORDER BY, LIMIT and aggregates are one uninterpreted function of the selected rows and of the values of the query's expressions.
- Case-insensitive name clashes: the renderer looks names up without case, column collection compares aliases exactly; `PlainQuery` keeps to qualifiers on which both agree. A column that names a table by something other than its alias is not collected for any scan, and is left out too.
- How a source resolves names in a query that is pushed down whole: `FoundAlike` says what is expected of it.
- Join types in the logical plan: nothing in planning reads that field, so the model takes the join kinds from the query itself.
- The access policy, cadence parsing and preview limits: lookups and comparisons.
- Planner.Optimize: does not return the join strategies, a comparison of two size estimates for each join that execution does not read.
- EndToEnd.FederatedQueryService.Execute: does not record the row counts of the artifacts for later plans, which use them for the join order only; known row counts are an input of the planner.
- Files, Parquet, DuckDB and JSON: the store is two maps, a table a sequence of rows, a hash an injective function; the plan id's 16 digits are not modelled as colliding.
- Time: backoff is an event, its length and the measured run times are not modelled. Stage metrics keep the attempt count only.
- Cancellation: when one task of a batch fails for good the other tasks go on, and the transition system lets them; nothing is proved about what a caller does meanwhile.
- Overlapping runs of one plan in one workspace: the code takes no lock, and the histories exclude them.
- Handle tables and workspace registration of the service: plain dictionaries.
- `str.strip` on characters other than blank, tab, newline and carriage return.
- Path syntax of API resources: a path arrives split into its segments; a dotted flatten path selects nothing, because only the names of a record's own fields are compared.
- A revision of a table in the middle of a run that reads it, see Assumptions.
- The other parts of the unified model: relationships, name resolution and the rewriting of unified (not source) metrics.
- MetricRewrite.RewriteSourceMetric: that the whole loop prefixes each reference once is stated for identifier keys only; for other keys each pass is what `MetricRewrite.SubstituteReplacesMatches` says, and a backslash in a source key, which the replacement template would interpret, is not modelled.
- Renderer.BuildTableAliasLookup: the order in which names are tried when a qualifier has several parts is the code's; clashes between names that differ only by case are settled by the normalisation function passed in.
