/**
 * `HybridSearchTaskManager`: schedules one task per experiment variant,
 * admits at most `maxConcurrentTasks` of them at a time through a
 * semaphore, retries the ones it cannot admit yet, and routes each task's
 * search outcome to the response processor or, for a critical failure, to
 * the batch future.
 *
 * Threads are not modelled: each callback of the Java code (a retry timer
 * firing, the pool running a task, the search answering or failing) is an
 * event method here, and any interleaving of callbacks is a sequence of
 * event calls. The ghost sequence `tasks` records every variant future and
 * the phase it is in.
 */
module TaskManager {
  import opened Common
  import opened Concurrent
  import opened Model
  import opened TaskContext
  import opened ResponseProcessor

  const TaskRetryDelayMilliseconds: nat := 1000
  const DefaultMinConcurrentThreads: nat := 24
  const ProcessorNumberDivisor: nat := 2

  /** `maxConcurrentTasks`: half the processors, clamped to [2, 24]. */
  function MaxConcurrentTasks(processors: nat): (n: nat)
    ensures 2 <= n <= DefaultMinConcurrentThreads
    ensures 4 <= processors < 50 ==> n == processors / ProcessorNumberDivisor
    ensures processors < 6 ==> n == 2
    ensures processors >= 48 ==> n == DefaultMinConcurrentThreads
  {
    var half := processors / ProcessorNumberDivisor;
    var capped := if DefaultMinConcurrentThreads < half then DefaultMinConcurrentThreads else half;
    if 2 < capped then capped else 2
  }

  /** More processors never mean fewer concurrent tasks. */
  lemma MaxConcurrentTasksMonotone(p: nat, q: nat)
    requires p <= q
    ensures MaxConcurrentTasks(p) <= MaxConcurrentTasks(q)
  {
    assert p / 2 <= q / 2;
  }

  // ---------------------------------------------------------------------
  // isCriticalSystemFailure
  // ---------------------------------------------------------------------

  /** The errors after which the whole batch is abandoned. */
  predicate IsCriticalKind(k: ThrowableKind)
  {
    k.OutOfMemoryError? || k.StackOverflowError? || k.CircuitBreakingException? || k.ClusterBlockException?
  }

  /** Some link of the cause chain of `t` is critical. */
  predicate HasCriticalCause(t: Throwable)
  {
    exists i :: 0 <= i < |CauseChain(t)| && IsCriticalKind(CauseChain(t)[i])
  }

  /** A chain is critical iff its head is, or the rest of it is. */
  lemma CriticalCauseStep(t: Throwable)
    ensures HasCriticalCause(t) <==> IsCriticalKind(t.kind) || (t.cause.Some? && HasCriticalCause(t.cause.value))
  {
    if IsCriticalKind(t.kind) {
      assert CauseChain(t)[0] == t.kind;
    }
    if t.cause.None? {
      assert CauseChain(t) == [t.kind];
    } else {
      var rest := CauseChain(t.cause.value);
      assert CauseChain(t) == [t.kind] + rest;
      if HasCriticalCause(t.cause.value) {
        var i :| 0 <= i < |rest| && IsCriticalKind(rest[i]);
        assert CauseChain(t)[i + 1] == rest[i];
      }
      if HasCriticalCause(t) && !IsCriticalKind(t.kind) {
        var i :| 0 <= i < |CauseChain(t)| && IsCriticalKind(CauseChain(t)[i]);
        assert rest[i - 1] == CauseChain(t)[i];
      }
    }
  }

  /** `isCriticalSystemFailure`: walks the `getCause()` chain looking for a critical error. */
  method IsCriticalSystemFailure(t: Throwable) returns (critical: bool)
    ensures critical <==> HasCriticalCause(t)
  {
    var current: Option<Throwable> := Some(t);
    while current.Some?
      invariant HasCriticalCause(t) <==> current.Some? && HasCriticalCause(current.value)
      decreases current
    {
      CriticalCauseStep(current.value);
      if IsCriticalKind(current.value.kind) {
        return true;
      }
      current := current.value.cause;
    }
    return false;
  }

  // ---------------------------------------------------------------------
  // Variant tasks
  // ---------------------------------------------------------------------

  /** `VariantTaskParameters`. */
  datatype VariantTaskParameters = VariantTaskParameters(
    experimentId: string,
    searchConfigId: string,
    index: string,
    query: string,
    queryText: string,
    size: int,
    experimentVariant: ExperimentVariant,
    judgmentIds: seq<string>,
    docIdToScores: map<string, string>,
    taskContext: ExperimentTaskContext)

  /**
   * Where a variant future is: waiting for admission (first attempt or a
   * delayed retry), admitted and queued on the pool, searching, finished
   * (its future completed, exceptionally if `failed`), or orphaned (its
   * future is never completed, see `SubmitTaskToThreadPool`).
   */
  datatype Phase = Waiting | Queued | Searching | Finished(failed: bool) | Orphaned

  /** Queued and searching tasks hold a permit. */
  predicate HoldsPermit(p: Phase)
  {
    p.Queued? || p.Searching?
  }

  /**
   * One variant future: the `scheduleTasksAsync` call it belongs to, its
   * parameters, its phase, and whether that call waits for it (`false`
   * for the retry started after a pool rejection, whose future nobody
   * holds).
   */
  datatype VariantTask = VariantTask(batch: nat, params: VariantTaskParameters, phase: Phase, observed: bool)

  /** How many tasks hold a permit. */
  function Held(tasks: seq<VariantTask>): (n: nat)
    ensures n <= |tasks|
  {
    if tasks == [] then 0
    else Held(tasks[..|tasks| - 1]) + (if HoldsPermit(tasks[|tasks| - 1].phase) then 1 else 0)
  }

  function HeldBy(p: Phase): nat
  {
    if HoldsPermit(p) then 1 else 0
  }

  /** Changing one task's phase changes the count by that task alone. */
  lemma {:induction false} HeldUpdate(tasks: seq<VariantTask>, i: nat, t: VariantTask)
    requires i < |tasks|
    ensures Held(tasks[i := t]) == Held(tasks) - HeldBy(tasks[i].phase) + HeldBy(t.phase)
  {
    var last := |tasks| - 1;
    if i < last {
      HeldUpdate(tasks[..last], i, t);
      assert tasks[i := t][..last] == tasks[..last][i := t];
    } else {
      assert tasks[i := t][..last] == tasks[..last];
    }
  }

  lemma HeldAppend(tasks: seq<VariantTask>, t: VariantTask)
    ensures Held(tasks + [t]) == Held(tasks) + HeldBy(t.phase)
  {
    assert (tasks + [t])[..|tasks|] == tasks;
  }

  /**
   * `after` is `before` with task `i`'s phase changed, and possibly with
   * further tasks of the same batch appended: every other task is kept.
   */
  ghost predicate ExtendsAt(before: seq<VariantTask>, after: seq<VariantTask>, i: nat)
  {
    && i < |before| <= |after|
    && (forall k :: 0 <= k < |before| && k != i ==> after[k] == before[k])
    && after[i] == before[i].(phase := after[i].phase)
    && (forall k :: |before| <= k < |after| ==> after[k].batch == before[i].batch)
  }

  lemma PhaseChangeExtends(before: seq<VariantTask>, i: nat, p: Phase, extra: seq<VariantTask>)
    requires i < |before|
    requires forall k :: 0 <= k < |extra| ==> extra[k].batch == before[i].batch
    ensures ExtendsAt(before, before[i := before[i].(phase := p)] + extra, i)
  {
    var after := before[i := before[i].(phase := p)] + extra;
    forall k | |before| <= k < |after| ensures after[k].batch == before[i].batch {
      assert after[k] == extra[k - |before|];
    }
  }

  /** All the futures a `scheduleTasksAsync` call waits for are complete. */
  predicate BatchSettled(tasks: seq<VariantTask>, batch: nat)
  {
    forall i :: 0 <= i < |tasks| && tasks[i].batch == batch && tasks[i].observed ==> tasks[i].phase.Finished?
  }

  /**
   * A batch with an observed orphaned future is never settled, so its
   * clean-up (and the removal of its context) never runs.
   */
  lemma OrphanBlocksCleanup(tasks: seq<VariantTask>, i: nat)
    requires i < |tasks| && tasks[i].observed && tasks[i].phase.Orphaned?
    ensures !BatchSettled(tasks, tasks[i].batch)
  {
  }

  class HybridSearchTaskManager {
    const maxConcurrentTasks: nat
    const concurrencyControl: Semaphore
    const searchResponseProcessor: SearchResponseProcessor
    /** `activeTasks`, a `LongAdder`. */
    var activeTasks: int
    var experimentTaskContexts: map<string, ExperimentTaskContext>

    ghost var tasks: seq<VariantTask>
    /** Number of `scheduleTasksAsync` calls so far. */
    ghost var batches: nat
    /** Number of batch clean-ups so far. */
    ghost var cleanups: nat

    /**
     * Permits are never negative and every permit taken is held by a
     * queued or searching task, so at most `maxConcurrentTasks` tasks are
     * in flight. `activeTasks` counts those tasks minus one for every
     * clean-up, whose decrement has no matching increment.
     */
    ghost predicate Valid()
      reads this, concurrencyControl
    {
      && 2 <= maxConcurrentTasks <= DefaultMinConcurrentThreads
      && concurrencyControl.permits >= 0
      && concurrencyControl.permits + Held(tasks) == maxConcurrentTasks
      && activeTasks == Held(tasks) - cleanups
      && (forall i :: 0 <= i < |tasks| ==> tasks[i].batch < batches)
    }

    constructor (processors: nat)
      ensures Valid()
      ensures maxConcurrentTasks == MaxConcurrentTasks(processors)
      ensures concurrencyControl.permits == maxConcurrentTasks
      ensures activeTasks == 0 && experimentTaskContexts == map[] && tasks == []
      ensures fresh(concurrencyControl) && fresh(searchResponseProcessor)
    {
      maxConcurrentTasks := MaxConcurrentTasks(processors);
      concurrencyControl := new Semaphore(MaxConcurrentTasks(processors));
      searchResponseProcessor := new SearchResponseProcessor();
      activeTasks := 0;
      experimentTaskContexts := map[];
      tasks := [];
      batches := 0;
      cleanups := 0;
    }

    /** Tasks in flight never exceed the permit pool. */
    lemma InFlightWithinBound()
      requires Valid()
      ensures Held(tasks) <= maxConcurrentTasks
      ensures concurrencyControl.permits <= maxConcurrentTasks
    {
    }

    /**
     * `scheduleTasksAsync`: creates the batch future and context, registers
     * the context under the experiment id unless one is there already,
     * makes sure the context has a map for this configuration, and
     * schedules one task per variant. `poolAccepts[j]` says whether the
     * pool accepts variant j's runnable if it is admitted.
     */
    method ScheduleTasksAsync(
      experimentId: string, searchConfigId: string, index: string, query: string, queryText: string, size: int,
      experimentVariants: seq<ExperimentVariant>, judgmentIds: seq<string>, docIdToScores: map<string, string>,
      configToExperimentVariants: map<string, map<string, string>>, hasFailure: AtomicFlag, poolAccepts: seq<bool>)
      returns (taskContext: ExperimentTaskContext, resultFuture: Promise<BatchResult>, ghost slots: seq<nat>)
      requires Valid()
      requires |poolAccepts| == |experimentVariants|
      modifies this, concurrencyControl
      ensures Valid()
      ensures fresh(taskContext) && fresh(resultFuture) && taskContext.resultFuture == resultFuture
      ensures taskContext.Valid() && resultFuture.state.Pending?
      ensures taskContext.totalVariants == |experimentVariants| && taskContext.outcomes == []
      ensures taskContext.hasFailure == hasFailure && taskContext.experimentId == experimentId
      ensures taskContext.configToExperimentVariants ==
        if searchConfigId in configToExperimentVariants then configToExperimentVariants
        else configToExperimentVariants[searchConfigId := map[]]
      ensures experimentTaskContexts ==
        if experimentId in old(experimentTaskContexts) then old(experimentTaskContexts)
        else old(experimentTaskContexts)[experimentId := taskContext]
      ensures batches == old(batches) + 1 && cleanups == old(cleanups)
      ensures |slots| == |experimentVariants| && |tasks| >= old(|tasks|)
      ensures forall i :: 0 <= i < old(|tasks|) ==> tasks[i] == old(tasks)[i]
      ensures forall j :: 0 <= j < |slots| ==> old(|tasks|) <= slots[j] < |tasks|
      ensures forall j :: 0 <= j < |slots| ==>
        tasks[slots[j]].batch == old(batches) && tasks[slots[j]].observed
        && tasks[slots[j]].params == VariantTaskParameters(experimentId, searchConfigId, index, query, queryText,
             size, experimentVariants[j], judgmentIds, docIdToScores, taskContext)
      ensures forall i :: old(|tasks|) <= i < |tasks| ==> tasks[i].batch == old(batches)
    {
      resultFuture := new Promise<BatchResult>();
      // The context's own copy of the map gets an entry for this
      // configuration if it has none (`computeIfAbsent`).
      var copied := configToExperimentVariants;
      if searchConfigId !in copied {
        copied := copied[searchConfigId := map[]];
      }
      taskContext := new ExperimentTaskContext(experimentId, searchConfigId, queryText, |experimentVariants|,
        copied, resultFuture, hasFailure);
      if experimentId !in experimentTaskContexts {
        experimentTaskContexts := experimentTaskContexts[experimentId := taskContext];
      }
      var batch := batches;
      batches := batches + 1;
      slots := [];
      if |experimentVariants| > 0 {
        // Every task gets these parameters with its own variant in place of the first one.
        var shared := VariantTaskParameters(experimentId, searchConfigId, index, query, queryText, size,
          experimentVariants[0], judgmentIds, docIdToScores, taskContext);
        slots := ScheduleVariants(batch, experimentVariants, poolAccepts, shared);
      }
    }

    /**
     * The scheduling loop of `scheduleTasksAsync`: one new observed future
     * per variant, each with the shared parameters `shared` and its own
     * variant, scheduled at once. Earlier tasks keep their state.
     */
    method ScheduleVariants(ghost batch: nat, experimentVariants: seq<ExperimentVariant>, poolAccepts: seq<bool>,
                            shared: VariantTaskParameters) returns (ghost slots: seq<nat>)
      requires Valid() && batch < batches
      requires |poolAccepts| == |experimentVariants|
      modifies this, concurrencyControl
      ensures Valid()
      ensures batches == old(batches) && cleanups == old(cleanups)
      ensures experimentTaskContexts == old(experimentTaskContexts)
      ensures |slots| == |experimentVariants| && |tasks| >= old(|tasks|)
      ensures forall i :: 0 <= i < old(|tasks|) ==> tasks[i] == old(tasks)[i]
      ensures forall j :: 0 <= j < |slots| ==> old(|tasks|) <= slots[j] < |tasks|
      ensures forall j :: 0 <= j < |slots| ==>
        tasks[slots[j]].batch == batch && tasks[slots[j]].observed
        && tasks[slots[j]].params == shared.(experimentVariant := experimentVariants[j])
      ensures forall i :: old(|tasks|) <= i < |tasks| ==> tasks[i].batch == batch
    {
      slots := [];
      var j := 0;
      while j < |experimentVariants|
        invariant 0 <= j <= |experimentVariants| && |slots| == j
        invariant Valid() && batches == old(batches) && cleanups == old(cleanups)
        invariant experimentTaskContexts == old(experimentTaskContexts)
        invariant |tasks| >= old(|tasks|)
        invariant forall i :: 0 <= i < old(|tasks|) ==> tasks[i] == old(tasks)[i]
        invariant forall k :: 0 <= k < j ==> old(|tasks|) <= slots[k] < |tasks|
        invariant forall k :: 0 <= k < j ==>
          tasks[slots[k]].batch == batch && tasks[slots[k]].observed
          && tasks[slots[k]].params == shared.(experimentVariant := experimentVariants[k])
        invariant forall i :: old(|tasks|) <= i < |tasks| ==> tasks[i].batch == batch
      {
        var slot := ScheduleNewTask(batch, shared.(experimentVariant := experimentVariants[j]), poolAccepts[j]);
        slots := slots + [slot];
        j := j + 1;
      }
    }

    /**
     * One iteration of the scheduling loop: a new observed future for
     * `params`, scheduled at once. Earlier tasks keep their state; every
     * task added belongs to `batch`.
     */
    method ScheduleNewTask(ghost batch: nat, params: VariantTaskParameters, poolAccepts: bool) returns (ghost slot: nat)
      requires Valid() && batch < batches
      modifies this, concurrencyControl
      ensures Valid()
      ensures batches == old(batches) && cleanups == old(cleanups)
      ensures experimentTaskContexts == old(experimentTaskContexts)
      ensures slot == old(|tasks|) && slot < |tasks|
      ensures tasks[slot].batch == batch && tasks[slot].observed && tasks[slot].params == params
      ensures forall i :: 0 <= i < old(|tasks|) ==> tasks[i] == old(tasks)[i]
      ensures forall i :: old(|tasks|) <= i < |tasks| ==> tasks[i].batch == batch
    {
      slot := |tasks|;
      HeldAppend(tasks, VariantTask(batch, params, Waiting, true));
      tasks := tasks + [VariantTask(batch, params, Waiting, true)];
      ghost var before := tasks;
      ghost var failed := params.taskContext.hasFailure.value;
      ghost var free := concurrencyControl.permits;
      ScheduleVariantTaskAsync(slot, params, poolAccepts);
      if failed {
        PhaseChangeExtends(before, slot, Finished(false), []);
      } else if free == 0 {
        PhaseChangeExtends(before, slot, Waiting, []);
        assert before[slot := before[slot].(phase := Waiting)] + [] == before;
      } else if poolAccepts {
        PhaseChangeExtends(before, slot, Queued, []);
      } else {
        PhaseChangeExtends(before, slot, Orphaned, [VariantTask(batch, params, Waiting, false)]);
      }
      assert ExtendsAt(before, tasks, slot);
    }

    /**
     * `scheduleVariantTaskAsync` for waiting task `i`: finishes at once,
     * without a permit, when the batch has failed; otherwise takes a permit
     * if one is free and submits the task, or else leaves it waiting for
     * the delayed retry (whose outcome its future will mirror).
     */
    method ScheduleVariantTaskAsync(ghost i: nat, params: VariantTaskParameters, poolAccepts: bool)
      requires Valid()
      requires i < |tasks| && tasks[i].params == params && tasks[i].phase.Waiting?
      modifies this, concurrencyControl
      ensures Valid()
      ensures batches == old(batches) && cleanups == old(cleanups)
      ensures experimentTaskContexts == old(experimentTaskContexts)
      ensures old(params.taskContext.hasFailure.value) ==>
        tasks == old(tasks)[i := old(tasks)[i].(phase := Finished(false))]
        && concurrencyControl.permits == old(concurrencyControl.permits)
      ensures !old(params.taskContext.hasFailure.value) && old(concurrencyControl.permits) == 0 ==>
        tasks == old(tasks) && concurrencyControl.permits == 0
      ensures !old(params.taskContext.hasFailure.value) && old(concurrencyControl.permits) > 0 && poolAccepts ==>
        tasks == old(tasks)[i := old(tasks)[i].(phase := Queued)]
        && concurrencyControl.permits == old(concurrencyControl.permits) - 1
      ensures !old(params.taskContext.hasFailure.value) && old(concurrencyControl.permits) > 0 && !poolAccepts ==>
        tasks == old(tasks)[i := old(tasks)[i].(phase := Orphaned)] + [VariantTask(old(tasks)[i].batch, params, Waiting, false)]
        && concurrencyControl.permits == old(concurrencyControl.permits)
    {
      if params.taskContext.hasFailure.value {
        HeldUpdate(tasks, i, tasks[i].(phase := Finished(false)));
        tasks := tasks[i := tasks[i].(phase := Finished(false))];
        return;
      }
      AdmitTask(i, params, poolAccepts);
    }

    /**
     * The admission step of `scheduleVariantTaskAsync`: takes a permit if
     * one is free and submits waiting task `i`; without a free permit the
     * task keeps waiting.
     */
    method AdmitTask(ghost i: nat, params: VariantTaskParameters, poolAccepts: bool)
      requires Valid()
      requires i < |tasks| && tasks[i].params == params && tasks[i].phase.Waiting?
      modifies this, concurrencyControl
      ensures Valid()
      ensures batches == old(batches) && cleanups == old(cleanups)
      ensures experimentTaskContexts == old(experimentTaskContexts)
      ensures old(concurrencyControl.permits) == 0 ==> tasks == old(tasks) && concurrencyControl.permits == 0
      ensures old(concurrencyControl.permits) > 0 && poolAccepts ==>
        tasks == old(tasks)[i := old(tasks)[i].(phase := Queued)]
        && concurrencyControl.permits == old(concurrencyControl.permits) - 1
      ensures old(concurrencyControl.permits) > 0 && !poolAccepts ==>
        tasks == old(tasks)[i := old(tasks)[i].(phase := Orphaned)] + [VariantTask(old(tasks)[i].batch, params, Waiting, false)]
        && concurrencyControl.permits == old(concurrencyControl.permits)
    {
      var acquired := concurrencyControl.TryAcquire();
      if acquired {
        activeTasks := activeTasks + 1;
        HeldUpdate(tasks, i, tasks[i].(phase := Queued));
        tasks := tasks[i := tasks[i].(phase := Queued)];
        SubmitTaskToThreadPool(i, params, poolAccepts);
      }
    }

    /**
     * `submitTaskToThreadPool` for task `i`, which has just taken a permit.
     * When the pool rejects the runnable, the permit is given back and a
     * retry is scheduled with a new future that nobody waits for: task `i`
     * is orphaned, and the retry is a new, unobserved task.
     */
    method SubmitTaskToThreadPool(ghost i: nat, params: VariantTaskParameters, poolAccepts: bool)
      requires i < |tasks| && tasks[i].params == params && tasks[i].phase.Queued?
      requires concurrencyControl.permits >= 0
      requires concurrencyControl.permits + Held(tasks) == maxConcurrentTasks
      modifies this, concurrencyControl
      ensures concurrencyControl.permits + Held(tasks) == maxConcurrentTasks
      ensures concurrencyControl.permits >= 0
      ensures activeTasks - Held(tasks) == old(activeTasks) - old(Held(tasks))
      ensures batches == old(batches) && cleanups == old(cleanups)
      ensures experimentTaskContexts == old(experimentTaskContexts)
      ensures poolAccepts ==> tasks == old(tasks) && concurrencyControl.permits == old(concurrencyControl.permits)
      ensures !poolAccepts ==>
        tasks == old(tasks)[i := old(tasks)[i].(phase := Orphaned)] + [VariantTask(old(tasks)[i].batch, params, Waiting, false)]
        && concurrencyControl.permits == old(concurrencyControl.permits) + 1
    {
      if !poolAccepts {
        concurrencyControl.Release();
        activeTasks := activeTasks - 1;
        var orphaned := tasks[i := tasks[i].(phase := Orphaned)];
        HeldUpdate(tasks, i, tasks[i].(phase := Orphaned));
        HeldAppend(orphaned, VariantTask(tasks[i].batch, params, Waiting, false));
        tasks := orphaned + [VariantTask(tasks[i].batch, params, Waiting, false)];
      }
    }

    /**
     * Task `i` stops holding its permit (`concurrencyControl.release()`
     * and `activeTasks.decrement()`) and moves to phase `next`.
     */
    method ReleaseTask(ghost i: nat, ghost next: Phase)
      requires Valid()
      requires i < |tasks| && HoldsPermit(tasks[i].phase) && !HoldsPermit(next)
      modifies this, concurrencyControl
      ensures Valid()
      ensures batches == old(batches) && cleanups == old(cleanups)
      ensures experimentTaskContexts == old(experimentTaskContexts)
      ensures tasks == old(tasks)[i := old(tasks)[i].(phase := next)]
      ensures concurrencyControl.permits == old(concurrencyControl.permits) + 1
    {
      concurrencyControl.Release();
      activeTasks := activeTasks - 1;
      HeldUpdate(tasks, i, tasks[i].(phase := next));
      tasks := tasks[i := tasks[i].(phase := next)];
    }

    /**
     * The pool runs queued task `i` (`executeVariantTaskAsync`). If the
     * batch has failed it gives back its permit and finishes. Otherwise it
     * builds the pipeline and the request; `buildError` is the exception
     * that building throws, if any, which goes to the runnable's
     * `onFailure`. Without one the search is sent.
     */
    method ExecuteVariantTaskAsync(ghost i: nat, params: VariantTaskParameters, buildError: Option<Throwable>, poolAccepts: bool)
      requires Valid() && params.taskContext.Valid()
      requires i < |tasks| && tasks[i].params == params && tasks[i].phase.Queued?
      modifies this, concurrencyControl, params.taskContext, params.taskContext.resultFuture, params.taskContext.hasFailure
      ensures Valid() && params.taskContext.Valid()
      ensures batches == old(batches) && cleanups == old(cleanups)
      ensures old(params.taskContext.hasFailure.value) ==>
        tasks == old(tasks)[i := old(tasks)[i].(phase := Finished(false))]
        && concurrencyControl.permits == old(concurrencyControl.permits) + 1
        && unchanged(params.taskContext, params.taskContext.resultFuture, params.taskContext.hasFailure)
      ensures !old(params.taskContext.hasFailure.value) && buildError.Some? ==>
        RunnableFailed(old(tasks), tasks, i, old(concurrencyControl.permits), concurrencyControl.permits,
                       buildError.value, false, poolAccepts)
        && (!RejectedByPool(buildError.value) ==>
              TaskFailureOutcome(params.taskContext, buildError.value, false, old(params.taskContext.resultFuture.state),
                                 old(params.taskContext.outcomes)))
        && (RejectedByPool(buildError.value) ==>
              unchanged(params.taskContext, params.taskContext.resultFuture, params.taskContext.hasFailure))
      ensures !old(params.taskContext.hasFailure.value) && buildError.None? ==>
        tasks == old(tasks)[i := old(tasks)[i].(phase := Searching)]
        && concurrencyControl.permits == old(concurrencyControl.permits)
        && unchanged(params.taskContext, params.taskContext.resultFuture, params.taskContext.hasFailure)
    {
      if params.taskContext.hasFailure.value {
        ReleaseTask(i, Finished(false));
        return;
      }
      if buildError.Some? {
        OnRunnableFailure(i, params, buildError.value, poolAccepts);
        return;
      }
      HeldUpdate(tasks, i, tasks[i].(phase := Searching));
      tasks := tasks[i := tasks[i].(phase := Searching)];
    }

    /**
     * `OptimizedVariantTaskRunnable.onFailure` for queued task `i`: gives
     * back the permit; if the direct cause is a pool rejection the task is
     * scheduled again and its future mirrors the new attempt; otherwise
     * the failure is handled and the future completes exceptionally.
     */
    method OnRunnableFailure(ghost i: nat, params: VariantTaskParameters, e: Throwable, poolAccepts: bool)
      requires Valid() && params.taskContext.Valid()
      requires i < |tasks| && tasks[i].params == params && tasks[i].phase.Queued?
      modifies this, concurrencyControl, params.taskContext, params.taskContext.resultFuture, params.taskContext.hasFailure
      ensures Valid() && params.taskContext.Valid()
      ensures batches == old(batches) && cleanups == old(cleanups)
      ensures RunnableFailed(old(tasks), tasks, i, old(concurrencyControl.permits), concurrencyControl.permits,
                             e, old(params.taskContext.hasFailure.value), poolAccepts)
      ensures !RejectedByPool(e) ==>
        TaskFailureOutcome(params.taskContext, e, old(params.taskContext.hasFailure.value),
                           old(params.taskContext.resultFuture.state), old(params.taskContext.outcomes))
      ensures RejectedByPool(e) ==> unchanged(params.taskContext, params.taskContext.resultFuture, params.taskContext.hasFailure)
    {
      if RejectedByPool(e) {
        ReleaseTask(i, Waiting);
        ghost var released := tasks;
        ScheduleVariantTaskAsync(i, params, poolAccepts);
        if !params.taskContext.hasFailure.value && poolAccepts {
          assert released[i := released[i].(phase := Queued)] == old(tasks);
        }
      } else {
        ReleaseTask(i, Finished(true));
        HandleTaskFailure(params.experimentVariant, e, params.taskContext);
      }
    }

    /**
     * The search of task `i` answered: the response processor handles it
     * and starts at most one write, then the permit is given back and the
     * future completes. What the write's callback counts comes later.
     */
    method OnSearchResponse(ghost i: nat, params: VariantTaskParameters, response: SearchResponse,
                            textualParameters: Option<string>, evaluationId: string, timestamp: string,
                            metrics: Result<seq<map<string, Json>>>)
      returns (write: Option<DaoWrite>)
      requires Valid() && params.taskContext.Valid()
      requires i < |tasks| && tasks[i].params == params && tasks[i].phase.Searching?
      modifies this, concurrencyControl, params.taskContext, params.taskContext.resultFuture
      modifies searchResponseProcessor, searchResponseProcessor.Trackers()
      ensures Valid() && params.taskContext.Valid()
      ensures batches == old(batches) && cleanups == old(cleanups)
      ensures tasks == old(tasks)[i := old(tasks)[i].(phase := Finished(false))]
      ensures concurrencyControl.permits == old(concurrencyControl.permits) + 1
      ensures old(params.taskContext.hasFailure.value) ==>
        write.None? && params.taskContext.outcomes == old(params.taskContext.outcomes)
      ensures !old(params.taskContext.hasFailure.value) ==>
        && write == ResponseWrite(response, metrics, params.size, params.experimentVariant, params.experimentId,
                                  params.searchConfigId, params.queryText, params.judgmentIds, evaluationId, timestamp)
        && params.taskContext.outcomes ==
             old(params.taskContext.outcomes) + (if FailsAtOnce(response, metrics, params.size) then [false] else [])
      ensures params.taskContext.configToExperimentVariants == old(params.taskContext.configToExperimentVariants)
    {
      write := searchResponseProcessor.ProcessSearchResponse(response, params.experimentVariant, textualParameters,
        params.experimentId, params.searchConfigId, params.queryText, params.size, params.judgmentIds, evaluationId,
        timestamp, metrics, params.taskContext);
      ReleaseTask(i, Finished(false));
    }

    /**
     * The search of task `i` failed: the failure is handled, then the
     * permit is given back and the future completes. A non-critical
     * failure only starts the ERROR variant write; its callback counts it.
     */
    method OnSearchFailure(ghost i: nat, params: VariantTaskParameters, e: Throwable, evaluationId: string,
                           timestamp: string) returns (write: Option<DaoWrite>)
      requires Valid() && params.taskContext.Valid()
      requires i < |tasks| && tasks[i].params == params && tasks[i].phase.Searching?
      modifies this, concurrencyControl, params.taskContext.resultFuture, params.taskContext.hasFailure
      ensures Valid() && params.taskContext.Valid()
      ensures batches == old(batches) && cleanups == old(cleanups)
      ensures tasks == old(tasks)[i := old(tasks)[i].(phase := Finished(false))]
      ensures concurrencyControl.permits == old(concurrencyControl.permits) + 1
      ensures HasCriticalCause(e) ==>
        write.None?
        && CriticalOutcome(params.taskContext, e, old(params.taskContext.hasFailure.value), old(params.taskContext.resultFuture.state))
      ensures !HasCriticalCause(e) ==>
        write == Some(searchResponseProcessor.HandleSearchFailure(e, params.experimentVariant, params.experimentId,
                                                                   evaluationId, timestamp))
        && unchanged(params.taskContext.hasFailure, params.taskContext.resultFuture)
    {
      write := HandleSearchFailure(e, params.experimentVariant, params.experimentId, evaluationId, timestamp,
        params.taskContext);
      ReleaseTask(i, Finished(false));
    }

    /**
     * `handleSearchFailure`: a critical failure completes the batch future
     * exceptionally, but only for the caller that wins the failure flag;
     * any other failure starts the ERROR variant write.
     */
    method HandleSearchFailure(e: Throwable, variant: ExperimentVariant, experimentId: string, evaluationId: string,
                               timestamp: string, ctx: ExperimentTaskContext) returns (write: Option<DaoWrite>)
      requires ctx.Valid()
      modifies ctx.resultFuture, ctx.hasFailure
      ensures ctx.Valid()
      ensures HasCriticalCause(e) ==> write.None? && CriticalOutcome(ctx, e, old(ctx.hasFailure.value), old(ctx.resultFuture.state))
      ensures !HasCriticalCause(e) ==>
        write == Some(searchResponseProcessor.HandleSearchFailure(e, variant, experimentId, evaluationId, timestamp))
        && unchanged(ctx.hasFailure, ctx.resultFuture)
    {
      var critical := IsCriticalSystemFailure(e);
      if critical {
        var won := ctx.hasFailure.CompareAndSet(false, true);
        if won {
          var _ := ctx.resultFuture.CompleteExceptionally(e);
        }
        write := None;
      } else {
        write := Some(searchResponseProcessor.HandleSearchFailure(e, variant, experimentId, evaluationId, timestamp));
      }
    }

    /**
     * `handleTaskFailure`: a critical failure is handled as in
     * `handleSearchFailure`; any other failure counts one variant failure.
     */
    method HandleTaskFailure(variant: ExperimentVariant, e: Throwable, ctx: ExperimentTaskContext)
      requires ctx.Valid()
      modifies ctx, ctx.resultFuture, ctx.hasFailure
      ensures ctx.Valid()
      ensures HasCriticalCause(e) ==> CriticalOutcome(ctx, e, old(ctx.hasFailure.value), old(ctx.resultFuture.state))
      ensures HasCriticalCause(e) ==> ctx.outcomes == old(ctx.outcomes)
      ensures !HasCriticalCause(e) ==> ctx.outcomes == old(ctx.outcomes) + [false] && unchanged(ctx.hasFailure)
    {
      var critical := IsCriticalSystemFailure(e);
      if critical {
        var won := ctx.hasFailure.CompareAndSet(false, true);
        if won {
          var _ := ctx.resultFuture.CompleteExceptionally(e);
        }
      } else {
        ctx.CompleteVariantFailure();
      }
    }

    /**
     * The clean-up that runs when every future of batch `batch` has
     * completed: removes whatever context is registered under the
     * experiment id and decrements `activeTasks` once more.
     */
    method CleanUp(experimentId: string, batch: nat)
      requires Valid()
      requires batch < batches && BatchSettled(tasks, batch)
      modifies this
      ensures Valid()
      ensures experimentTaskContexts == old(experimentTaskContexts) - {experimentId}
      ensures activeTasks == old(activeTasks) - 1 && cleanups == old(cleanups) + 1
      ensures tasks == old(tasks) && batches == old(batches)
    {
      experimentTaskContexts := experimentTaskContexts - {experimentId};
      activeTasks := activeTasks - 1;
      cleanups := cleanups + 1;
    }
  }

  /** The runnable failed because the pool rejected it (`e.getCause() instanceof RejectedExecutionException`). */
  predicate RejectedByPool(e: Throwable)
  {
    e.cause.Some? && e.cause.value.kind.RejectedExecutionException?
  }

  /**
   * The tasks and permits after queued task `i` failed with `e`. Its permit
   * is given back. A rejected task is scheduled again: it finishes at once
   * when the batch has failed, is queued again when a permit is free and
   * the pool accepts it, and otherwise is orphaned behind a new unobserved
   * retry. Any other failure finishes the task exceptionally.
   */
  ghost predicate RunnableFailed(before: seq<VariantTask>, after: seq<VariantTask>, i: nat,
                                 permitsBefore: int, permitsAfter: int, e: Throwable, failedBefore: bool, poolAccepts: bool)
    requires i < |before|
  {
    if !RejectedByPool(e) then
      after == before[i := before[i].(phase := Finished(true))] && permitsAfter == permitsBefore + 1
    else if failedBefore then
      after == before[i := before[i].(phase := Finished(false))] && permitsAfter == permitsBefore + 1
    else if poolAccepts then
      after == before[i := before[i].(phase := Queued)] && permitsAfter == permitsBefore
    else
      after == before[i := before[i].(phase := Orphaned)] + [VariantTask(before[i].batch, before[i].params, Waiting, false)]
      && permitsAfter == permitsBefore + 1
  }

  /**
   * The batch context after `handleTaskFailure(e)`: a critical failure
   * sets the flag and may fail the batch future, counting nothing; any
   * other failure counts one failure and leaves the flag alone.
   */
  ghost predicate TaskFailureOutcome(ctx: ExperimentTaskContext, e: Throwable, flagBefore: bool,
                                     futureBefore: FutureState<BatchResult>, outcomesBefore: seq<bool>)
    reads ctx, ctx.hasFailure, ctx.resultFuture
  {
    && (HasCriticalCause(e) ==> CriticalOutcome(ctx, e, flagBefore, futureBefore) && ctx.outcomes == outcomesBefore)
    && (!HasCriticalCause(e) ==> ctx.outcomes == outcomesBefore + [false] && ctx.hasFailure.value == flagBefore)
  }

  /**
   * After a critical failure: the failure flag is set, and the batch future
   * holds the failure iff this call was the first to set the flag and the
   * future was still pending; otherwise the future is unchanged.
   */
  ghost predicate CriticalOutcome(ctx: ExperimentTaskContext, e: Throwable, flagBefore: bool, before: FutureState<BatchResult>)
    reads ctx, ctx.hasFailure, ctx.resultFuture
  {
    && ctx.hasFailure.value
    && ctx.resultFuture.state == (if !flagBefore && before.Pending? then Failed(e) else before)
  }
}
