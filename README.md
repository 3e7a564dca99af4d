# Search relevance: experiment orchestration, modelled in Dafny

This project models the core of the OpenSearch *search relevance* plugin.
That core creates experiments and runs them against search configurations,
query sets and judgments. The modelled paths are:

- **Creating an experiment** (`PutExperimentTransportAction`). The
  experiment is stored as PROCESSING and the caller gets its id at once.
  The action then fetches the query set and every search configuration,
  and dispatches each query text to the processor for its experiment type.
  The experiment is written COMPLETED when the last query answers, or ERROR
  on the first failure.
- **The hybrid optimizer.**
  - `HybridOptimizerExperimentProcessor` creates one experiment variant per
    parameter combination and merges the judgment ratings. It schedules one
    batch of variant tasks per search configuration on the task manager.
  - `HybridSearchTaskManager` admits tasks through a semaphore and runs one
    search per variant.
  - `SearchResponseProcessor` scores each response, persists the variant,
    and tracks the best NDCG per query.
  - `ExperimentTaskContext` counts each batch's variants down to zero. It
    then completes the batch future with a summary and a status.
- **Pointwise and pairwise evaluation** (`MetricsHelper`). Pointwise
  evaluation collects ratings through a judgment countdown. Pairwise
  comparison collects the distinct hit ids of each configuration and
  compares the first two.
- **Supporting code.**
  - The search request builder and the query-source helpers: placeholder
    replacement, the hybrid query shape check, and the temporary
    normalization pipeline.
  - The executor thread-pool settings.
  - The document layout (`toXContent`) of evaluation results, search
    configurations and experiment variants.
  - The three delete actions. Each refuses a blank id and refuses with
    CONFLICT while experiments use the resource.
  - The transport serialisation of `PutSearchConfigurationRequest`.

State that the Java code changes in place becomes Dafny classes:

- the task manager, task context and response processor;
- the judgment countdown and pairwise collection;
- the query phase and configuration fetch of the put action;
- `AtomicBoolean`, `CompletableFuture`, `Semaphore` and `ActionListener`
  in module `Concurrent`.

Every asynchronous callback is an event method of its own, so any
interleaving of threads is a sequence of calls. A search response is one
event; the DAO write it starts completes in a later event, so the
variant is counted after the task has given back its permit, and a
variant write may land after the batch has finished. Each method is specified against pure
functions: `Replay`/`FinishCount` for the counters, `TrackerUpdate` for
the best-configuration tracker, `MergedScores` for the ratings, `Collected`
for batch results and `Tagged` for query results. The lemmas are proved
about those functions.

Outcomes of code outside the core are parameters: the DAO writes and
lookups, the search client, the thread pool's accept or reject, the
metrics calculation and the JSON parsers. Identifiers and timestamps are
parameters too.

Behaviour that the model shows and proves, as the code is written:

- An experiment whose query set is empty, or whose configuration list is
  empty, is never written COMPLETED. Its countdown starts at zero and is
  never decremented to zero (`QueryPhase.Valid`, `ConfigFetch.Valid`).
- A batch of zero variants never completes its future (`BatchAccounting`).
- A response without hits writes the variant COMPLETED but counts it as a
  failure (`ResponseWrite`, `OnFailedVariantWritten`).
- The `size` argument of both request builders is ignored: every request
  asks for 200 hits (`SizeIsIgnored`).
- A null search pipeline is written as `""` (`SearchConfigurationDocument`).
- In pointwise evaluation, a matching judgment entry with a null ratings
  list fails the listener. That callback does not count, so the countdown
  never ends (`OnJudgmentResponse`). The hybrid path skips such an entry
  instead (`RatingsAgreeWithHybridPath`).
- The task manager's clean-up decrements `activeTasks` without a matching
  increment (`HybridSearchTaskManager.Valid`).
- A runnable that the pool rejects releases its permit but never completes
  its future. Its batch then never settles, so clean-up never runs
  (`OrphanBlocksCleanup`).

Source paths below are relative to the repository root.

## Model

| member | source | states |
|---|---|---|
| Common.TrimIsSlice | src/main/java/org/opensearch/searchrelevance/executors/SearchResponseProcessor.java:94 | `trim()` removes only leading and trailing characters at or below `' '`. What remains is the contiguous middle slice of the string. |
| Common.TrimIdempotent | src/main/java/org/opensearch/searchrelevance/model/EvaluationResult.java:62-65 | Trimming an already trimmed field changes nothing. |
| Common.TrimEmptyIffBlank | src/main/java/org/opensearch/searchrelevance/transport/searchConfiguration/DeleteSearchConfigurationTransportAction.java:58 | `id.trim().isEmpty()` holds exactly when every character of the id is blank. |
| Common.SplitJoinRoundTrip | src/main/java/org/opensearch/searchrelevance/executors/SearchResponseProcessor.java:92 | Splitting at every separator and joining the pieces with it gives back the original string. |
| Common.DropTrailingEmpty | src/main/java/org/opensearch/searchrelevance/executors/SearchResponseProcessor.java:92 | `String.split` drops exactly the trailing empty pieces. It keeps the rest in order, and the last kept piece is non-empty. |
| Common.JavaSplitFieldsAvoidSeparator | src/main/java/org/opensearch/searchrelevance/executors/SearchResponseProcessor.java:92-94 | When the split yields two or more parts, no part contains the separator. |
| Common.JavaSplitLastNonEmpty | src/main/java/org/opensearch/searchrelevance/executors/SearchResponseProcessor.java:92-94 | When the split yields two or more parts, the last part (the weights) is non-empty. |
| Common.ReplaceChar | src/main/java/org/opensearch/searchrelevance/executors/SearchResponseProcessor.java:96 | `replace(";", "/")` turns every `;` into `/`, changes nothing else and keeps the length. |
| Common.ReplaceAllNoOccurrence | src/main/java/org/opensearch/searchrelevance/model/builder/SearchRequestBuilder.java:61 | Replacing a placeholder that does not occur leaves the template unchanged. |
| Common.ReplaceAllBySelf | src/main/java/org/opensearch/searchrelevance/model/builder/SearchRequestBuilder.java:61 | Replacing the placeholder by itself leaves the template unchanged. |
| Common.ReplaceAllLeading | src/main/java/org/opensearch/searchrelevance/model/builder/SearchRequestBuilder.java:61 | A leading occurrence is replaced, and the scan resumes after it. |
| Concurrent.AtomicFlag.CompareAndSet | src/main/java/org/opensearch/searchrelevance/metrics/MetricsHelper.java:171-175 | Succeeds iff the flag held the expected value, and only then stores the update. Of two callers, one wins. |
| Concurrent.Promise.Complete | src/main/java/org/opensearch/searchrelevance/executors/ExperimentTaskContext.java:158 | A future changes only while pending. It is resolved at most once, whoever calls. |
| Concurrent.Promise.CompleteExceptionally | src/main/java/org/opensearch/searchrelevance/executors/HybridSearchTaskManager.java:298-301 | As `Complete`, exceptionally: a future already completed keeps its value. |
| Concurrent.Semaphore.TryAcquire | src/main/java/org/opensearch/searchrelevance/executors/HybridSearchTaskManager.java:174 | Takes a permit iff one is free. |
| Concurrent.Semaphore.Release | src/main/java/org/opensearch/searchrelevance/executors/HybridSearchTaskManager.java:201 | Returns one permit. |
| Model.WriteObject | src/main/java/org/opensearch/searchrelevance/model/EvaluationResult.java:60-70 | The builder receives a start-object token, one field per entry in order, then an end-object token. |
| Model.StringListRoundTrip | src/main/java/org/opensearch/searchrelevance/model/EvaluationResult.java:66-67 | A list of strings written as a field reads back as the same list. |
| Model.TrimYieldsTrimmed | src/main/java/org/opensearch/searchrelevance/model/SearchConfiguration.java:50-54 | Every trimmed field has no blank character at either end. |
| Model.EnumNamesTrimmed | src/main/java/org/opensearch/searchrelevance/model/ExperimentVariant.java:51-52 | `name().trim()` of every experiment type and status is the enum name itself. |
| Model.EvaluationResult.ToXContent | src/main/java/org/opensearch/searchrelevance/model/EvaluationResult.java:60-70 | Writes exactly one object: the record's document. |
| Model.EvaluationResultDocument | src/main/java/org/opensearch/searchrelevance/model/EvaluationResult.java:60-70 | Keys appear in the order id, timestamp, searchConfigurationId, searchText, judgmentIds, documentIds, metrics. Reading the document back gives the record with trimmed strings and null lists as empty lists. |
| Model.EvaluationResultStoredIdempotent | src/main/java/org/opensearch/searchrelevance/model/EvaluationResult.java:62-67 | Writing a record that was already written and read back changes nothing. |
| Model.SearchConfiguration.ToXContent | src/main/java/org/opensearch/searchrelevance/model/SearchConfiguration.java:47-56 | Writes exactly one object: the configuration's document. |
| Model.SearchConfigurationDocument | src/main/java/org/opensearch/searchrelevance/model/SearchConfiguration.java:47-56 | Six keys in order. The id is written untrimmed and the other five trimmed. A null or blank pipeline is written as `""`. Reading the document back gives the stored configuration. |
| Model.ExperimentVariant.ToXContent | src/main/java/org/opensearch/searchrelevance/model/ExperimentVariant.java:47-57 | Writes exactly one object: the variant's document. |
| Model.ExperimentVariantDocument | src/main/java/org/opensearch/searchrelevance/model/ExperimentVariant.java:47-57 | Seven keys in order. Type and status are written as their enum names, parameters and results as they are, and id, timestamp and experimentId trimmed. Reading the document back gives the stored variant. |
| TaskContext.Classify | src/main/java/org/opensearch/searchrelevance/executors/ExperimentTaskContext.java:131-153 | Once every variant has reported, the status is ALL_FAILED iff all failed, PARTIAL_SUCCESS iff some but not all failed, and SUCCESS iff none failed. |
| TaskContext.Initial | src/main/java/org/opensearch/searchrelevance/executors/ExperimentTaskContext.java:46-69 | A new batch has all its variants remaining and nothing counted. |
| TaskContext.Record | src/main/java/org/opensearch/searchrelevance/executors/ExperimentTaskContext.java:93-104 | One completion lowers `remaining` by one and raises exactly one of the success and failure counts. It preserves successful + failed + remaining = total. |
| TaskContext.CountOf | src/main/java/org/opensearch/searchrelevance/executors/ExperimentTaskContext.java:93-104 | The number of successes (or failures) among the completions never exceeds their count. |
| TaskContext.ReplayCounters | src/main/java/org/opensearch/searchrelevance/executors/ExperimentTaskContext.java:93-113 | After any sequence of completions, `remaining` has dropped by their number, and each counter has risen by its number of successes or failures. |
| TaskContext.FinishCountExact | src/main/java/org/opensearch/searchrelevance/executors/ExperimentTaskContext.java:109-113 | `finishExperiment` runs once iff the completions bring a positive `remaining` to zero, and never otherwise. |
| TaskContext.BatchAccounting | src/main/java/org/opensearch/searchrelevance/executors/ExperimentTaskContext.java:46-113 | From a new batch the counters count exactly the successes and failures. The batch finishes at most once, and exactly once iff it has at least one variant and all have reported. A batch of zero variants never finishes. |
| TaskContext.ExperimentTaskContext.constructor | src/main/java/org/opensearch/searchrelevance/executors/ExperimentTaskContext.java:46-69 | All variants remaining, no counts, and the shared results map, future and failure flag as given. |
| TaskContext.ExperimentTaskContext.ScheduleVariantWrite | src/main/java/org/opensearch/searchrelevance/executors/ExperimentTaskContext.java:74-88 | Starts the variant's write and nothing else: the write is logged with its evaluation id and success flag, and the counters, outcomes and results map are untouched. |
| TaskContext.ExperimentTaskContext.OnVariantWritten | src/main/java/org/opensearch/searchrelevance/executors/ExperimentTaskContext.java:75-86 | When a scheduled write lands, variant id to evaluation id is put under the configuration only if the write succeeded, the variant was a success and the configuration has a map. Nothing is counted, so a write landing after the batch finished is missing from its result. Each started write calls back once: its request leaves the pending writes. |
| TaskContext.ExperimentTaskContext.CompleteVariantSuccess | src/main/java/org/opensearch/searchrelevance/executors/ExperimentTaskContext.java:93-96 | Counts one success. The completion that reaches zero finishes the batch once. |
| TaskContext.ExperimentTaskContext.CompleteVariantFailure | src/main/java/org/opensearch/searchrelevance/executors/ExperimentTaskContext.java:101-104 | Counts one failure. The completion that reaches zero finishes the batch once. |
| TaskContext.ExperimentTaskContext.CompleteVariant | src/main/java/org/opensearch/searchrelevance/executors/ExperimentTaskContext.java:109-113 | Decrements `remaining`, and finishes the batch exactly when it reaches zero. |
| TaskContext.ExperimentTaskContext.FinishExperiment | src/main/java/org/opensearch/searchrelevance/executors/ExperimentTaskContext.java:118-159 | A pending future is completed with the configuration id, every recorded evaluation, the counters and their status. A future already completed is left as it was. |
| TaskContext.ExperimentTaskContext.FormatEvaluationResults | src/main/java/org/opensearch/searchrelevance/executors/ExperimentTaskContext.java:164-178 | Lists every variant recorded for the configuration exactly once, with its evaluation id. Lists nothing when the configuration has no map. |
| TaskContext.FormatEntries | src/main/java/org/opensearch/searchrelevance/executors/ExperimentTaskContext.java:169-174 | The loop emits one entry per map key, with no duplicates and no other entries. |
| ResponseProcessor.ExtractWeights | src/main/java/org/opensearch/searchrelevance/executors/SearchResponseProcessor.java:88-99 | The weights string is "unknown" for null parameters or fewer than three comma-separated parts. Otherwise it is the trimmed last part with `;` turned into `/`, of the same length, and it holds neither `;` nor `,`. |
| ResponseProcessor.WeightsOfField | src/main/java/org/opensearch/searchrelevance/executors/SearchResponseProcessor.java:94-96 | For a field without `,`, the weights are the trimmed field with `;` turned into `/`. They have its length and hold neither `;` nor `,`. |
| ResponseProcessor.TrackerUpdate | src/main/java/org/opensearch/searchrelevance/executors/SearchResponseProcessor.java:64-73 | Each update counts one more variant, and the best score never decreases. The best is replaced iff the new score is strictly higher. |
| ResponseProcessor.TrackBounds | src/main/java/org/opensearch/searchrelevance/executors/SearchResponseProcessor.java:56-73 | After any sequence of updates: the count is the number of updates, the best is at least -1 and at least every score seen, and scores all at or below -1 leave the initial tracker. |
| ResponseProcessor.TrackKeepsFirstMax | src/main/java/org/opensearch/searchrelevance/executors/SearchResponseProcessor.java:64-73 | The tracker ends up holding the first candidate with the maximal score: a tie keeps the earlier one. |
| ResponseProcessor.BestConfigurationTracker.UpdateIfBetter | src/main/java/org/opensearch/searchrelevance/executors/SearchResponseProcessor.java:64-73 | The tracker's new state is `TrackerUpdate` of its old state and the candidate. |
| ResponseProcessor.NdcgValue | src/main/java/org/opensearch/searchrelevance/executors/SearchResponseProcessor.java:185-198 | The value is that of the first numeric metric named `NDCG@k`, or -1.0 when there is none. It fails only when a metric's name does not cast to a string. |
| ResponseProcessor.ExtractNdcgValue | src/main/java/org/opensearch/searchrelevance/executors/SearchResponseProcessor.java:185-198 | The scanning loop returns exactly `NdcgValue` for the name `NDCG@k`. |
| ResponseProcessor.SearchResponseProcessor.TrackScore | src/main/java/org/opensearch/searchrelevance/executors/SearchResponseProcessor.java:134-143 | The query's tracker is created if absent and offered the candidate. Every other query's tracker is kept, and no log or statistic changes. |
| ResponseProcessor.SearchResponseProcessor.ProcessSearchResponse | src/main/java/org/opensearch/searchrelevance/executors/SearchResponseProcessor.java:105-180 | Once the batch has failed, nothing changes and nothing is written. Otherwise the write started is `ResponseWrite`, and a response with hits whose metrics or NDCG fail counts one failure at once. A hybrid variant's non-negative NDCG updates its query's tracker, and existing trackers are kept. |
| ResponseProcessor.ResponseWrite | src/main/java/org/opensearch/searchrelevance/executors/SearchResponseProcessor.java:120-176 | A response without hits writes the no-hits variant. Nothing is written iff the response has hits but its metrics or NDCG fail. Otherwise the evaluation result carries the evaluation id, configuration, query text, hit ids and metrics. |
| ResponseProcessor.ResponseCountedOnce | src/main/java/org/opensearch/searchrelevance/executors/SearchResponseProcessor.java:117-227 | A response of a live batch is counted exactly once, at once or by its write's callback, and as a success iff it has hits, metrics, a readable NDCG and a persisted evaluation. |
| ResponseProcessor.SearchResponseProcessor.OnEvaluationResultWritten | src/main/java/org/opensearch/searchrelevance/executors/SearchResponseProcessor.java:163-176 | The evaluation write's callback counts one outcome, a success iff the write succeeded. On success the COMPLETED variant's write is scheduled; the results map is untouched. |
| ResponseProcessor.SearchResponseProcessor.OnFailedVariantWritten | src/main/java/org/opensearch/searchrelevance/executors/SearchResponseProcessor.java:219-222 | The callback of the no-hits or ERROR variant write counts one failure whether the write succeeded or not. |
| ResponseProcessor.SearchResponseProcessor.UpdateExperimentVariant | src/main/java/org/opensearch/searchrelevance/executors/SearchResponseProcessor.java:225-252 | Schedules the COMPLETED variant's write and counts one success without waiting for it. The trackers are kept and the results map is untouched. |
| ResponseProcessor.SearchResponseProcessor.CheckAndLogBestConfiguration | src/main/java/org/opensearch/searchrelevance/executors/SearchResponseProcessor.java:257-285 | Once at least total - 1 variants have reported, the query is logged the first time only. Only that first time adds its best weights to the histogram. Before the threshold nothing changes. Past the threshold the experiment's statistics are marked logged iff they are ready and not yet logged. |
| ResponseProcessor.SearchResponseProcessor.TrackWeightStatistics | src/main/java/org/opensearch/searchrelevance/executors/SearchResponseProcessor.java:290-298 | The histogram becomes `AddWeight` of the old one. Nothing else changes. |
| ResponseProcessor.SearchResponseProcessor.CheckAndLogAggregatedStats | src/main/java/org/opensearch/searchrelevance/executors/SearchResponseProcessor.java:303-326 | Emits an experiment's statistics the first time its tracked and logged queries are equally many and at least one, and never again. |
| ResponseProcessor.SearchResponseProcessor.HandleTaskFailure | src/main/java/org/opensearch/searchrelevance/executors/SearchResponseProcessor.java:397-400 | Counts one failure and records no evaluation. |
| ResponseProcessor.SearchResponseProcessor.HandleSearchFailure | src/main/java/org/opensearch/searchrelevance/executors/SearchResponseProcessor.java:405-429 | The write started is the variant, under its id and parameters and the experiment, as ERROR with its evaluation id and the error message. |
| ResponseProcessor.AddWeight | src/main/java/org/opensearch/searchrelevance/executors/SearchResponseProcessor.java:290-298 | Null and "unknown" weights change nothing. A real weight's count under its experiment rises by one, and every other count is kept. |
| ResponseProcessor.CompletedVariant | src/main/java/org/opensearch/searchrelevance/executors/SearchResponseProcessor.java:234-243 | The variant keeps its id, becomes COMPLETED and links its evaluation. |
| ResponseProcessor.NoHitsVariant | src/main/java/org/opensearch/searchrelevance/executors/SearchResponseProcessor.java:200-223 | The variant becomes COMPLETED with its evaluation id and "no search hits found". |
| ResponseProcessor.ErrorVariant | src/main/java/org/opensearch/searchrelevance/executors/SearchResponseProcessor.java:405-429 | The variant becomes ERROR with its evaluation id and the error message. |
| TaskManager.MaxConcurrentTasks | src/main/java/org/opensearch/searchrelevance/executors/HybridSearchTaskManager.java:82 | The limit is half the processors, clamped to the range 2 to 24. |
| TaskManager.MaxConcurrentTasksMonotone | src/main/java/org/opensearch/searchrelevance/executors/HybridSearchTaskManager.java:82 | More processors never lower the limit. |
| TaskManager.CriticalCauseStep | src/main/java/org/opensearch/searchrelevance/executors/HybridSearchTaskManager.java:307-319 | A throwable is critical iff its own kind is critical or its cause is. |
| TaskManager.IsCriticalSystemFailure | src/main/java/org/opensearch/searchrelevance/executors/HybridSearchTaskManager.java:307-319 | The loop over the cause chain answers true iff some throwable in the chain is an OOM, a stack overflow, a circuit-breaking exception or a cluster block. |
| TaskManager.OrphanBlocksCleanup | src/main/java/org/opensearch/searchrelevance/executors/HybridSearchTaskManager.java:197-212 | A task whose future is never completed keeps its batch from settling, so the batch's clean-up never runs. |
| TaskManager.HybridSearchTaskManager.constructor | src/main/java/org/opensearch/searchrelevance/executors/HybridSearchTaskManager.java:70-90 | The semaphore starts with `MaxConcurrentTasks` permits and no task is in flight. |
| TaskManager.HybridSearchTaskManager.InFlightWithinBound | src/main/java/org/opensearch/searchrelevance/executors/HybridSearchTaskManager.java:165-195 | At most `maxConcurrentTasks` tasks hold a permit, and free permits never exceed the limit. |
| TaskManager.HybridSearchTaskManager.ScheduleTasksAsync | src/main/java/org/opensearch/searchrelevance/executors/HybridSearchTaskManager.java:95-160 | Creates a fresh context and pending future for the batch and registers the context. Schedules one task per variant with the shared parameters and that variant. Earlier tasks are untouched and the permit invariant is kept. |
| TaskManager.HybridSearchTaskManager.ScheduleVariants | src/main/java/org/opensearch/searchrelevance/executors/HybridSearchTaskManager.java:136-151 | Task j of the batch runs variant j with the batch's shared parameters. Earlier tasks are untouched. |
| TaskManager.HybridSearchTaskManager.ScheduleNewTask | src/main/java/org/opensearch/searchrelevance/executors/HybridSearchTaskManager.java:136-151 | Appends one task with the given parameters to the batch and leaves every other task as it was. |
| TaskManager.HybridSearchTaskManager.ScheduleVariantTaskAsync | src/main/java/org/opensearch/searchrelevance/executors/HybridSearchTaskManager.java:165-195 | A failed batch completes the task without taking a permit. Without a free permit the task is retried later. Otherwise a permit is taken, and kept iff the pool accepts the runnable. |
| TaskManager.HybridSearchTaskManager.SubmitTaskToThreadPool | src/main/java/org/opensearch/searchrelevance/executors/HybridSearchTaskManager.java:197-212 | An accepted runnable keeps its permit. A rejected one returns its permit and leaves its future uncompleted. |
| TaskManager.HybridSearchTaskManager.ExecuteVariantTaskAsync | src/main/java/org/opensearch/searchrelevance/executors/HybridSearchTaskManager.java:217-289 | A failed batch releases the permit and completes the task without searching. Otherwise a request that cannot be built goes to the runnable's failure handler, with its retry or failure count, and a built one starts the search holding its permit. |
| TaskManager.HybridSearchTaskManager.AdmitTask | src/main/java/org/opensearch/searchrelevance/executors/HybridSearchTaskManager.java:173-192 | Without a free permit the task stays waiting for its retry, and nothing changes. With a free permit, the permit is taken and the task is queued if the pool accepts it. If the pool rejects it, the permit is given back, the task is orphaned and an unobserved retry task is added. |
| TaskManager.HybridSearchTaskManager.ReleaseTask | src/main/java/org/opensearch/searchrelevance/executors/HybridSearchTaskManager.java:354-358 | Gives back a held permit and moves the task to a phase that holds none. Nothing else changes. |
| TaskManager.HybridSearchTaskManager.OnRunnableFailure | src/main/java/org/opensearch/searchrelevance/executors/HybridSearchTaskManager.java:355-372 | Releases the permit. A pool rejection schedules the task again: it finishes at once if the batch has failed, is queued again when the pool accepts, and is orphaned behind a retry otherwise, with the batch context untouched. Any other error fails the task's future: a critical one sets the flag, another counts one failure. |
| TaskManager.HybridSearchTaskManager.OnSearchResponse | src/main/java/org/opensearch/searchrelevance/executors/HybridSearchTaskManager.java:243-265 | The task finishes and returns its permit. Unless the batch has failed, the write started is `ResponseWrite` and only an immediate failure is counted; nothing is written once it has failed. |
| TaskManager.HybridSearchTaskManager.OnSearchFailure | src/main/java/org/opensearch/searchrelevance/executors/HybridSearchTaskManager.java:267-279 | The task finishes and returns its permit. A critical failure sets the flag and writes nothing; any other starts the ERROR variant write and counts nothing yet. |
| TaskManager.HybridSearchTaskManager.HandleSearchFailure | src/main/java/org/opensearch/searchrelevance/executors/HybridSearchTaskManager.java:290-305 | A critical failure sets the batch flag, and fails the batch future only if this call set the flag and the future was pending; nothing is written. Any other failure starts the ERROR variant write and leaves the flag and future alone. |
| TaskManager.HybridSearchTaskManager.HandleTaskFailure | src/main/java/org/opensearch/searchrelevance/executors/HybridSearchTaskManager.java:380-390 | The same split between critical and counted failures, for a task that never got a response. |
| TaskManager.HybridSearchTaskManager.CleanUp | src/main/java/org/opensearch/searchrelevance/executors/HybridSearchTaskManager.java:153-157 | Once every task of the batch has settled, the experiment's context is removed and `activeTasks` is decremented. |
| QuerySource.ValidateHybridQuery | src/main/java/org/opensearch/searchrelevance/experiment/QuerySourceUtil.java:68-91 | Passes iff `query.hybrid.queries` is present with exactly two sub-queries. Each missing level or a wrong count gets its own `IllegalArgumentException`. |
| QuerySource.HybridQueryValid | src/main/java/org/opensearch/searchrelevance/experiment/QuerySourceUtil.java:68-91 | Every query of the shape `{query: {hybrid: {queries: [a, b]}}}` passes, with sub-queries `[a, b]`. |
| QuerySource.WeightList | src/main/java/org/opensearch/searchrelevance/experiment/QuerySourceUtil.java:45-52 | The weights array becomes a list of the same numbers in the same order. |
| QuerySource.ReadNumbersOfWeightList | src/main/java/org/opensearch/searchrelevance/experiment/QuerySourceUtil.java:45-52 | Reading the written weights back gives the original array. |
| QuerySource.CreateDefinitionOfTemporarySearchPipeline | src/main/java/org/opensearch/searchrelevance/experiment/QuerySourceUtil.java:36-61 | Succeeds iff both techniques are non-null and the weights are null or a float array. A null technique throws a `NullPointerException`. |
| QuerySource.TemporaryPipelineCarriesParameters | src/main/java/org/opensearch/searchrelevance/experiment/QuerySourceUtil.java:36-61 | The pipeline carries both techniques unchanged, and weights iff the weights parameter is non-null, with the same values in order. |
| RequestBuilder.Rethrown | src/main/java/org/opensearch/searchrelevance/model/builder/SearchRequestBuilder.java:120-122 | An `IOException` becomes an `IllegalArgumentException` "Failed to build search request" with it as cause. Other exceptions pass unchanged. |
| RequestBuilder.SizePrecheck | src/main/java/org/opensearch/searchrelevance/model/builder/SearchRequestBuilder.java:98-107 | Refuses iff a `size` field is present and not a number. |
| RequestBuilder.BuildSearchRequest | src/main/java/org/opensearch/searchrelevance/model/builder/SearchRequestBuilder.java:56-123 | The steps fail in order. A template parse failure is rethrown, then a source parse failure is rethrown, then a null or non-numeric `size` is thrown. Otherwise the request targets the index with size 200. Its source is the parsed source (without `query`) plus the wrapper query. A named pipeline is set iff one is given non-empty. |
| RequestBuilder.BuildRequestForHybridSearch | src/main/java/org/opensearch/searchrelevance/model/builder/SearchRequestBuilder.java:125-207 | The steps fail in order: template parse, hybrid shape check, source parse, then refusal of a source that carries its own non-empty pipeline ("search pipeline is not allowed in search request"), then the size precheck. Otherwise the request has no named pipeline, size 200, the wrapper query and the given temporary pipeline iff it is non-empty. |
| RequestBuilder.SizeIsIgnored | src/main/java/org/opensearch/searchrelevance/model/builder/SearchRequestBuilder.java:108-111 | Two calls differing only in `size` build the same request, on both paths. |
| RequestBuilder.TemplateWithoutPlaceholder | src/main/java/org/opensearch/searchrelevance/model/builder/SearchRequestBuilder.java:61 | A template without the placeholder gives the same request for every query text. |
| RequestBuilder.LeadingPlaceholderReplaced | src/main/java/org/opensearch/searchrelevance/model/builder/SearchRequestBuilder.java:61 | A placeholder at the start of the template becomes the query text. |
| Executor.CoreThreads | src/main/java/org/opensearch/searchrelevance/executors/SearchRelevanceExecutor.java:46 | The core pool size is the larger of the minimum and a quarter of the processors. |
| Executor.CappedCoreThreads | src/main/java/org/opensearch/searchrelevance/executors/SearchRelevanceExecutor.java:49 | Four times the core size, or 32 when that is smaller. |
| Executor.MaxThreads | src/main/java/org/opensearch/searchrelevance/executors/SearchRelevanceExecutor.java:49 | The maximum pool size is the larger of half the processors and four times the core size capped at 32. |
| Executor.MaxThreadsCoverCore | src/main/java/org/opensearch/searchrelevance/executors/SearchRelevanceExecutor.java:42-60 | For every processor count, maximum >= core >= minimum. |
| Executor.GetExecutorBuilder | src/main/java/org/opensearch/searchrelevance/executors/SearchRelevanceExecutor.java:42-60 | The plugin's pool name and keep-alive, with core and maximum sizes in order. |
| Executor.SearchRelevanceExecutor.Initialize | src/main/java/org/opensearch/searchrelevance/executors/SearchRelevanceExecutor.java:66-73 | A null thread pool is refused and changes nothing. Otherwise the executor becomes the plugin's named pool. |
| Executor.SearchRelevanceExecutor.GetExecutor | src/main/java/org/opensearch/searchrelevance/executors/SearchRelevanceExecutor.java:79-81 | Returns the pool once initialised, and an inline executor before that. |
| DeleteActions.JoinStringsListsParts | src/main/java/org/opensearch/searchrelevance/transport/searchConfiguration/DeleteSearchConfigurationTransportAction.java:72 | `String.join` places every part, in order, at its offset in the joined string. |
| DeleteActions.DoExecute | src/main/java/org/opensearch/searchrelevance/transport/searchConfiguration/DeleteSearchConfigurationTransportAction.java:55-62 | A null or blank id is refused with BAD_REQUEST. Any other id is looked up among experiments, on the resource's field, with limit 3. |
| DeleteActions.OnExperiments | src/main/java/org/opensearch/searchrelevance/transport/searchConfiguration/DeleteSearchConfigurationTransportAction.java:62-86 | A failed lookup is forwarded unchanged. A response with hits is refused with CONFLICT. A null response or zero hits deletes the id. |
| DeleteActions.PrefixedJoinListsParts | src/main/java/org/opensearch/searchrelevance/transport/searchConfiguration/DeleteSearchConfigurationTransportAction.java:69-73 | In a message made of a prefix and the joined ids, each id sits at its offset after the prefix. |
| DeleteActions.ConflictNamesEveryExperiment | src/main/java/org/opensearch/searchrelevance/transport/searchConfiguration/DeleteSearchConfigurationTransportAction.java:64-77 | The CONFLICT message names every experiment that uses the resource, in hit order. |
| DeleteActions.DeleteOnlyWhenUnused | src/main/java/org/opensearch/searchrelevance/transport/searchConfiguration/DeleteSearchConfigurationTransportAction.java:55-90 | A delete happens only for a non-blank id whose lookup succeeded and found no experiment using it. |
| SearchConfigRequest.Encode | src/main/java/org/opensearch/searchrelevance/transport/searchConfiguration/PutSearchConfigurationRequest.java:39-45 | Name, index and query body come first, followed by one or two items for the optional pipeline. |
| SearchConfigRequest.ReadStringAt | src/main/java/org/opensearch/searchrelevance/transport/searchConfiguration/PutSearchConfigurationRequest.java:30-37 | Reads a string iff one is next, and fails with an `IOException` otherwise. |
| SearchConfigRequest.ReadBoolAt | src/main/java/org/opensearch/searchrelevance/transport/searchConfiguration/PutSearchConfigurationRequest.java:30-37 | Reads a boolean iff one is next, and fails with an `IOException` otherwise. |
| SearchConfigRequest.Decode | src/main/java/org/opensearch/searchrelevance/transport/searchConfiguration/PutSearchConfigurationRequest.java:30-37 | A read consumes four or five items. Any failure is an `IOException`. |
| SearchConfigRequest.DecodeEncode | src/main/java/org/opensearch/searchrelevance/transport/searchConfiguration/PutSearchConfigurationRequest.java:30-45 | Reading back what `writeTo` wrote gives the same request, null pipeline included. The read stops exactly at its end, whatever surrounds it. |
| SearchConfigRequest.EncodeInjective | src/main/java/org/opensearch/searchrelevance/transport/searchConfiguration/PutSearchConfigurationRequest.java:39-45 | Two requests that serialise alike are equal. |
| SearchConfigRequest.Validate | src/main/java/org/opensearch/searchrelevance/transport/searchConfiguration/PutSearchConfigurationRequest.java:63-66 | Every request passes validation. |
| SearchConfigRequest.WriteTo | src/main/java/org/opensearch/searchrelevance/transport/searchConfiguration/PutSearchConfigurationRequest.java:39-45 | Appends exactly `Encode(request)` to the stream. |
| SearchConfigRequest.ReadFrom | src/main/java/org/opensearch/searchrelevance/transport/searchConfiguration/PutSearchConfigurationRequest.java:30-37 | Reads what `Decode` reads and advances past it, or fails with an `IOException`. |
| JudgmentRatings.FirstMatch | src/main/java/org/opensearch/searchrelevance/experiment/HybridOptimizerExperimentProcessor.java:189-197 | Finds the first entry for the query text, or reports that no entry matches. |
| JudgmentRatings.LastFor | src/main/java/org/opensearch/searchrelevance/experiment/HybridOptimizerExperimentProcessor.java:193 | Finds the last pair for a doc id, or reports that there is none. |
| JudgmentRatings.PutAllLastWins | src/main/java/org/opensearch/searchrelevance/experiment/HybridOptimizerExperimentProcessor.java:193 | After copying the pairs, a doc id holds the rating of its last pair, and an unrated doc id keeps its value. Nothing else is added. |
| JudgmentRatings.PutAllAppend | src/main/java/org/opensearch/searchrelevance/experiment/HybridOptimizerExperimentProcessor.java:155-162 | Copying two lists one after the other is copying their concatenation. |
| JudgmentRatings.Contributed | src/main/java/org/opensearch/searchrelevance/experiment/HybridOptimizerExperimentProcessor.java:177-198 | A judgment without hits, or without an entry for the query, contributes no pairs. |
| JudgmentRatings.MergedIsOneCopy | src/main/java/org/opensearch/searchrelevance/experiment/HybridOptimizerExperimentProcessor.java:153-171 | Merging the judgments one by one is copying all their pairs in judgment-list order. |
| JudgmentRatings.MergedRatingIsLast | src/main/java/org/opensearch/searchrelevance/experiment/HybridOptimizerExperimentProcessor.java:153-171 | A doc id is rated iff some judgment rates it for the query. It holds the last such rating, so a later judgment overrides an earlier one. |
| JudgmentRatings.SilentJudgmentChangesNothing | src/main/java/org/opensearch/searchrelevance/experiment/HybridOptimizerExperimentProcessor.java:178-181 | A judgment that contributes nothing leaves the merged ratings unchanged. |
| HybridProcessor.VariantParametersExact | src/main/java/org/opensearch/searchrelevance/experiment/HybridOptimizerExperimentProcessor.java:86-95 | With distinct option keys, a variant's parameters are exactly the three option keys, each with its combination's value. |
| HybridProcessor.VariantBuildsItsPipeline | src/main/java/org/opensearch/searchrelevance/experiment/HybridOptimizerExperimentProcessor.java:85-109 | Every created variant yields a temporary pipeline that carries its two techniques and its weights. |
| HybridProcessor.CreateVariants | src/main/java/org/opensearch/searchrelevance/experiment/HybridOptimizerExperimentProcessor.java:85-109 | Fails iff there is a combination and the option keys repeat (`Map.of`). Otherwise variant i is the new PROCESSING variant of combination i, with the i-th id. |
| HybridProcessor.ExtractJudgmentScores | src/main/java/org/opensearch/searchrelevance/experiment/HybridOptimizerExperimentProcessor.java:177-198 | The map becomes the old map with this judgment's contributed pairs copied in. |
| HybridProcessor.Responses | src/main/java/org/opensearch/searchrelevance/experiment/HybridOptimizerExperimentProcessor.java:155-158 | The joined responses, one per lookup, in order. |
| HybridProcessor.ProcessJudgments | src/main/java/org/opensearch/searchrelevance/experiment/HybridOptimizerExperimentProcessor.java:144-172 | Fails iff some lookup failed, with the error of a failed lookup. Otherwise it returns the ratings of all judgments merged in list order. |
| HybridProcessor.CollectedExactly | src/main/java/org/opensearch/searchrelevance/experiment/HybridOptimizerExperimentProcessor.java:241-252 | A configuration result is collected iff some configuration's batch produced exactly those evaluations, and they are non-empty. |
| HybridProcessor.CollectedBounded | src/main/java/org/opensearch/searchrelevance/experiment/HybridOptimizerExperimentProcessor.java:241-252 | At most one result is collected per configuration. |
| HybridProcessor.HybridOptimizerExperimentProcessor.ScheduleSearchConfigurations | src/main/java/org/opensearch/searchrelevance/experiment/HybridOptimizerExperimentProcessor.java:214-255 | One fresh pending batch future per configuration. Batch k's task j runs variant j of configuration k with the merged ratings. Earlier tasks are untouched. |
| HybridProcessor.HybridOptimizerExperimentProcessor.ProcessHybridOptimizerExperiment | src/main/java/org/opensearch/searchrelevance/experiment/HybridOptimizerExperimentProcessor.java:61-139 | Repeated option keys throw. A failed judgment lookup sets the flag, schedules nothing, and reaches the listener only if the flag was clear. Otherwise every configuration is scheduled and the listener is untouched. Batch k's task j then runs the j-th created variant of configuration k with the ratings merged from the judgments in list order. |
| HybridProcessor.FirstFailure | src/main/java/org/opensearch/searchrelevance/experiment/HybridOptimizerExperimentProcessor.java:262-266 | The reported error is the error of some failed batch. |
| HybridProcessor.Values | src/main/java/org/opensearch/searchrelevance/experiment/HybridOptimizerExperimentProcessor.java:258-261 | The batch results, one per completed future, in order. |
| HybridProcessor.OnConfigurationsSettled | src/main/java/org/opensearch/searchrelevance/experiment/HybridOptimizerExperimentProcessor.java:258-267 | When every batch completed, the listener gets the collected results. When one failed, the flag is set and the failure reaches the listener only if the flag was clear. |
| MetricsHelper.CheckParameters | src/main/java/org/opensearch/searchrelevance/metrics/MetricsHelper.java:206-209 | Refuses with "Missing required parameters" iff the configuration list or the judgment list is empty. |
| MetricsHelper.RatingsAgreeWithHybridPath | src/main/java/org/opensearch/searchrelevance/metrics/MetricsHelper.java:221-238 | The pointwise path copies the same pairs as the hybrid optimizer. It fails exactly where the matching entry's list is null, which the hybrid optimizer skips. |
| MetricsHelper.JudgmentCountdown.constructor | src/main/java/org/opensearch/searchrelevance/metrics/MetricsHelper.java:211-216 | An empty ratings map, a zero count, and nothing started. |
| MetricsHelper.JudgmentCountdown.CopyRatings | src/main/java/org/opensearch/searchrelevance/metrics/MetricsHelper.java:233-235 | The map becomes the old map with the pairs copied in order. The countdown is untouched. |
| MetricsHelper.JudgmentCountdown.OnJudgmentResponse | src/main/java/org/opensearch/searchrelevance/metrics/MetricsHelper.java:219-261 | A null ratings list fails the listener and is not counted. Otherwise the pairs are copied and the callback counted. The last callback starts the configurations once, even without ratings. |
| MetricsHelper.JudgmentCountdown.OnJudgmentFailure | src/main/java/org/opensearch/searchrelevance/metrics/MetricsHelper.java:264-283 | The callback is counted. When it is the last one, the configurations start with the ratings so far, or with none collected the listener fails with "Failed to fetch any valid judgments". |
| MetricsHelper.RunsCountPlannedSearches | src/main/java/org/opensearch/searchrelevance/metrics/MetricsHelper.java:358-365 | The countdown starts at exactly the number of searches issued. |
| MetricsHelper.CheckHybridVariants | src/main/java/org/opensearch/searchrelevance/metrics/MetricsHelper.java:457-459 | Refuses iff the variant list is null or empty. |
| MetricsHelper.FirstIndex | src/main/java/org/opensearch/searchrelevance/metrics/MetricsHelper.java:112-115 | The position of an id's first occurrence among the hits. |
| MetricsHelper.Distinct | src/main/java/org/opensearch/searchrelevance/metrics/MetricsHelper.java:112-115 | The distinct ids are exactly the hit ids, each once. |
| MetricsHelper.DistinctKeepsFirstOccurrenceOrder | src/main/java/org/opensearch/searchrelevance/metrics/MetricsHelper.java:112-115 | The distinct ids keep the order of their first occurrences among the hits. |
| MetricsHelper.Snapshots | src/main/java/org/opensearch/searchrelevance/metrics/MetricsHelper.java:144-150 | One snapshot per configuration in iteration order. A null list reads as empty. |
| MetricsHelper.PairwiseResultsShape | src/main/java/org/opensearch/searchrelevance/metrics/MetricsHelper.java:134-169 | With no configuration, there are no snapshots. Otherwise every configuration has exactly one snapshot and no snapshot names another. A pair is compared iff there are at least two configurations: the first two in iteration order, with the calculation's result. |
| MetricsHelper.OrderCoversMap | src/main/java/org/opensearch/searchrelevance/metrics/MetricsHelper.java:144-146 | An iteration order lists as many keys as the map has. |
| MetricsHelper.Nullable | src/main/java/org/opensearch/searchrelevance/metrics/MetricsHelper.java:117 | Every configuration that answered has its (non-null) list, and no other configuration appears. |
| MetricsHelper.PairwiseCollection.constructor | src/main/java/org/opensearch/searchrelevance/metrics/MetricsHelper.java:89-99 | No results yet, and one pending search per configuration. |
| MetricsHelper.PairwiseCollection.OnSearchResponse | src/main/java/org/opensearch/searchrelevance/metrics/MetricsHelper.java:108-124 | A response after a failure is ignored. Otherwise the configuration's distinct ids are stored and the count drops. The last response delivers the pairwise results, or their failure. |
| MetricsHelper.PairwiseCollection.OnSearchFailure | src/main/java/org/opensearch/searchrelevance/metrics/MetricsHelper.java:171-175 | Sets the flag. The failure reaches the listener iff the flag was clear. |
| MetricsHelper.TwoFailuresReportOnce | src/main/java/org/opensearch/searchrelevance/metrics/MetricsHelper.java:171-175 | Of two failures in a row, only the first reaches the listener. |
| PutExperiment.DoExecute | src/main/java/org/opensearch/searchrelevance/transport/experiment/PutExperimentTransportAction.java:82-120 | A null request is refused with BAD_REQUEST before anything is stored. Otherwise the PROCESSING experiment is stored. A failed store gives INTERNAL_SERVER_ERROR. A successful one answers the id and starts processing. |
| PutExperiment.StringField | src/main/java/org/opensearch/searchrelevance/transport/experiment/PutExperimentTransportAction.java:208-216 | `(String) source.get(key)` is null for an absent or null field and the string for a string. Anything else fails its cast. |
| PutExperiment.EntryQueryTexts | src/main/java/org/opensearch/searchrelevance/transport/experiment/PutExperimentTransportAction.java:182-190 | One query text per entry, in order. |
| PutExperiment.ConvertToQuerySet | src/main/java/org/opensearch/searchrelevance/transport/experiment/PutExperimentTransportAction.java:172-201 | No hits is NOT_FOUND. A `querySetQueries` that is not a list gives no queries. |
| PutExperiment.QuerySetEntries | src/main/java/org/opensearch/searchrelevance/transport/experiment/PutExperimentTransportAction.java:181-190 | One stored entry per query text. |
| PutExperiment.Present | src/main/java/org/opensearch/searchrelevance/transport/experiment/PutExperimentTransportAction.java:127-130 | The query texts, each non-null, in order. |
| PutExperiment.EntryQueryTextsOfEntries | src/main/java/org/opensearch/searchrelevance/transport/experiment/PutExperimentTransportAction.java:182-190 | The entries of a list of query texts read back as those texts. |
| PutExperiment.QuerySetRoundTrip | src/main/java/org/opensearch/searchrelevance/transport/experiment/PutExperimentTransportAction.java:172-201 | A found query set gives back its query texts, in order. |
| PutExperiment.ConvertToSearchConfiguration | src/main/java/org/opensearch/searchrelevance/transport/experiment/PutExperimentTransportAction.java:203-217 | No hits is NOT_FOUND. Otherwise the conversion succeeds iff all six fields cast, and then holds their values. |
| PutExperiment.OnQuerySet | src/main/java/org/opensearch/searchrelevance/transport/experiment/PutExperimentTransportAction.java:122-138 | A failed fetch or conversion writes the ERROR experiment with that error. Otherwise the query texts go on, with nothing written. |
| PutExperiment.Tagged | src/main/java/org/opensearch/searchrelevance/transport/experiment/PutExperimentTransportAction.java:350-369 | A hybrid experiment adds each configuration result tagged with the query text, and nothing when the results are absent. Other types add the whole result, tagged once. |
| PutExperiment.TaggedCarriesQueryText | src/main/java/org/opensearch/searchrelevance/transport/experiment/PutExperimentTransportAction.java:350-369 | Every entry added for a query carries that query's text. |
| PutExperiment.HandleFailureOutcome | src/main/java/org/opensearch/searchrelevance/transport/experiment/PutExperimentTransportAction.java:380-384 | As written: the flag ends set. An ERROR experiment with the error message is written iff the flag was clear. |
| PutExperiment.HybridFailureNeverRecorded | src/main/java/org/opensearch/searchrelevance/experiment/HybridOptimizerExperimentProcessor.java:133-138 | As written: a failed judgment lookup on the query phase's own clear flag reaches the listener exactly once, with "Failed to process judgments", yet the listener's `handleFailure` then writes nothing and the flag stays set. |
| PutExperiment.BatchFailureNeverReported | src/main/java/org/opensearch/searchrelevance/experiment/HybridOptimizerExperimentProcessor.java:262-266 | As written: a critical failure in a batch makes the task manager win the shared flag and fail the batch future; the processor's handler then loses the flag, so the listener is never called and nothing is written. |
| PutExperiment.HandleReportedFailureOutcome | src/main/java/org/opensearch/searchrelevance/transport/experiment/PutExperimentTransportAction.java:413-435 | Corrected: a failure the hybrid processor reported writes the ERROR experiment with its message. |
| PutExperiment.ReportedHybridFailureRecordedOnce | src/main/java/org/opensearch/searchrelevance/transport/experiment/PutExperimentTransportAction.java:380-384 | Corrected, on the judgment-lookup path: the failure reaches the listener once, and the ERROR experiment carrying the processor's error is written exactly once. |
| PutExperiment.QueryPhase.constructor | src/main/java/org/opensearch/searchrelevance/transport/experiment/PutExperimentTransportAction.java:232-252 | No results, one pending query per query text, and a fresh clear flag. |
| PutExperiment.QueryPhase.Dispatch | src/main/java/org/opensearch/searchrelevance/transport/experiment/PutExperimentTransportAction.java:264-335 | Each query text goes, in order, to the type's processor, unless the flag is set. A null type throws BAD_REQUEST "Unknown experimentTypenull" on the first query. |
| PutExperiment.QueryPhase.OnQueryResults | src/main/java/org/opensearch/searchrelevance/transport/experiment/PutExperimentTransportAction.java:338-378 | Ignored once the flag is set. Otherwise the tagged entries are appended, and the last query writes COMPLETED with every entry. A failed update then writes ERROR. |
| PutExperiment.QueryPhase.OnFailure | src/main/java/org/opensearch/searchrelevance/transport/experiment/PutExperimentTransportAction.java:380-384 | As written: the flag ends set, and the write is exactly `HandleFailureOutcome`'s. |
| PutExperiment.QueryPhase.OnReportedHybridFailure | src/main/java/org/opensearch/searchrelevance/transport/experiment/PutExperimentTransportAction.java:413-435 | Corrected: with the flag already won by the processor, the ERROR experiment is written once. |
| PutExperiment.ConfigFetch.constructor | src/main/java/org/opensearch/searchrelevance/transport/experiment/PutExperimentTransportAction.java:141-143 | No configurations yet, one pending per configuration id, and a fresh clear flag. |
| PutExperiment.ConfigFetch.OnConfigResponse | src/main/java/org/opensearch/searchrelevance/transport/experiment/PutExperimentTransportAction.java:146-163 | Ignored once the flag is set. A conversion failure writes ERROR only for the caller that wins the flag. Otherwise the configuration is stored under its id and the count drops. The last one starts the query phase, where a null type writes ERROR. |
| PutExperiment.ConfigFetch.OnConfigFailure | src/main/java/org/opensearch/searchrelevance/transport/experiment/PutExperimentTransportAction.java:164-168 | Sets the flag. ERROR is written iff the flag was clear. |

## Left out

- Threads, locks and timing are not modelled. Each callback, including each DAO write's completion, is one atomic event method, and any interleaving is a sequence of calls. A DAO that calls its listener inline, before the response handler returns and the permit is released, is not modelled separately: its completion is taken as a later event. `synchronized` blocks and the delayed retry of an unadmitted task (`TASK_RETRY_DELAY_MILLISECONDS`) are a re-call, not a timer.
- The DAOs, the search client, the thread pool, UUIDs and timestamps are parameters or event arguments. Their effects are the write logs `ExperimentDao.writes` and the outcomes given to the callbacks.
- `CompletableFuture.allOf` is modelled as reporting the first failed future in list order. The `CompletionException` wrapper around it is left out.
- HybridProcessor.OnConfigurationsSettled: collects configuration results in configuration order. The source appends them in completion order.
- The `hydratedResults` map is never written. Every batch is handed it, and each batch's context starts from its own copy, so the model passes the same empty map to every batch. A thread-safety difference between the map and its copies is not modelled.
- Library exception messages (`NullPointerException`, `ClassCastException`, `IOException`) are `""`. A null message, on which `Map.of("error", …)` would itself throw, is not modelled.
- Judgment pairs with null `docId`/`rating` values, and type confusion inside judgment data, are not modelled. Ratings are string-to-string.
- The transport stream of `PutSearchConfigurationRequest` is modelled at item level, not bytes. The `ActionRequest` header written by `super` is left out.
- The pairwise metric calculation and the evaluation-metrics calculation are function parameters. So are the JSON parsers and `SearchSourceBuilder.fromXContent`.
- The iteration order of every `HashMap` is a parameter.
- The per-search callbacks of `MetricsHelper.processSearchConfigurations` (evaluation writes and their countdown) are not modelled. Their planned count is (`RunsCountPlannedSearches`).
- Logging is left out. That includes `logBestConfiguration`, `logAggregatedStatistics` and `calculateAverageBestNDCG`, which only log, and `getConcurrencyMetrics`, which only reports.
- The `PluginConstants` values (option keys, the query-text placeholder) are parameters, because the constants file is not part of this model.
- The parameter combinations produced by `ExperimentOptionsFactory` are an input, for the same reason.
- A null experiment type is `None`. A null query text survives `ConvertToQuerySet` as `None` and is not followed further: the query phase receives non-null texts.
- `calculateMetricsAsync`'s null check (PutExperimentTransportAction.java:225-227) is not modelled. Both of its arguments are always built non-null.
- `doExecute`'s outer `catch` (PutExperimentTransportAction.java:116-119) is not modelled. The code inside it throws only from the DAO call, which is a parameter.
- `EvaluationResult` has the seven fields and the seven-argument constructor of EvaluationResult.java:33-58, and its document writes only those. SearchResponseProcessor.java:150-161 calls a ten-argument constructor, which EvaluationResult.java does not declare. Its three extra arguments are the experiment id, the variant id and the parameters string built at SearchResponseProcessor.java:146-149. The model builds the seven-field record and drops those three arguments.
- The batch-failure path of a hybrid optimizer experiment has no corrected model: with the task manager holding the shared flag, the fix belongs in the processor's handler, and only the as-written behaviour (`BatchFailureNeverReported`) is modelled.
- NDCG values and weights are `real`, not `double`. Rounding is not modelled.

## Findings

| source | as written | input that shows it | evidently intended | confidence | as-written member | corrected member |
|---|---|---|---|---|---|---|
| src/main/java/org/opensearch/searchrelevance/transport/experiment/PutExperimentTransportAction.java:380-384 | The hybrid optimizer processor receives the query phase's own `hasFailure` flag. When a judgment lookup fails it calls `compareAndSet(false, true)` before calling `listener.onFailure` (HybridOptimizerExperimentProcessor.java:133-138). The listener's `handleFailure` then tries `compareAndSet(false, true)` on the same flag, always loses, and writes nothing. | A HYBRID_OPTIMIZER experiment whose judgment lookup fails while no failure has been recorded. The processor sets the flag and reports. `handleFailure` finds the flag set, so the experiment stays PROCESSING forever, and later queries are ignored. (A batch that fails critically also leaves it PROCESSING, for another reason: the task manager wins the flag first and the processor reports nothing; see `BatchFailureNeverReported`. The correction here does not cover that path.) | The first reported failure marks the experiment ERROR once. | not executed | PutExperiment.HybridFailureNeverRecorded | PutExperiment.ReportedHybridFailureRecordedOnce |
