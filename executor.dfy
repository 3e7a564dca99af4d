/**
 * `SearchRelevanceExecutor`: the sizing of the plugin's scaling thread pool
 * and the process-wide task executor handle.
 */
module Executor {
  import opened Common

  const SearchRelevanceExecThreadPoolName: string := "_plugin_search_relevance_executor"
  const MinThreadSize: nat := 2
  const ProcessorCountDivisor: nat := 2
  const KeepAliveMinutes: nat := 5
  const NullThreadPoolMessage: string :=
    "Argument thread-pool to Search Relevance Executor cannot be null. This is required to build executor to run actions in parallel"

  /** Core threads: a quarter of the processors, never fewer than two. */
  function CoreThreads(allocatedProcessors: nat): (n: nat)
    ensures n >= MinThreadSize && n >= allocatedProcessors / 4
    ensures n == MinThreadSize || n == allocatedProcessors / 4
  {
    if MinThreadSize < allocatedProcessors / 4 then allocatedProcessors / 4 else MinThreadSize
  }

  const MaxThreadCap: nat := 32

  /** Four times the core size, capped at 32 threads. */
  function CappedCoreThreads(allocatedProcessors: nat): (c: nat)
    ensures c <= MaxThreadCap && c <= CoreThreads(allocatedProcessors) * 4
    ensures c == MaxThreadCap || c == CoreThreads(allocatedProcessors) * 4
  {
    var core := CoreThreads(allocatedProcessors);
    if core * 4 < MaxThreadCap then core * 4 else MaxThreadCap
  }

  /** Max threads: half the processors, or four times the core size capped at 32, whichever is larger. */
  function MaxThreads(allocatedProcessors: nat): (n: nat)
    ensures n >= allocatedProcessors / ProcessorCountDivisor && n >= CappedCoreThreads(allocatedProcessors)
    ensures n == allocatedProcessors / ProcessorCountDivisor || n == CappedCoreThreads(allocatedProcessors)
  {
    var capped := CappedCoreThreads(allocatedProcessors);
    if allocatedProcessors / ProcessorCountDivisor < capped then capped else allocatedProcessors / ProcessorCountDivisor
  }

  /** The scaling pool always has at least as many max threads as core threads. */
  lemma MaxThreadsCoverCore(allocatedProcessors: nat)
    ensures MaxThreads(allocatedProcessors) >= CoreThreads(allocatedProcessors) >= MinThreadSize
  {
    var core := CoreThreads(allocatedProcessors);
    if core * 4 >= 32 {
      // The core size is above two, so it is processors / 4, which half the processors covers.
      assert core == allocatedProcessors / 4;
      assert allocatedProcessors / 2 >= allocatedProcessors / 4;
    }
  }

  /** `ScalingExecutorBuilder(name, core, max, keepAlive)`. */
  datatype ExecutorBuilder = ExecutorBuilder(name: string, coreThreads: nat, maxThreads: nat, keepAliveMinutes: nat)

  /** `getExecutorBuilder`. */
  function GetExecutorBuilder(allocatedProcessors: nat): (b: ExecutorBuilder)
    ensures b.name == SearchRelevanceExecThreadPoolName && b.keepAliveMinutes == KeepAliveMinutes
    ensures MinThreadSize <= b.coreThreads <= b.maxThreads
    ensures b.coreThreads == CoreThreads(allocatedProcessors) && b.maxThreads == MaxThreads(allocatedProcessors)
  {
    MaxThreadsCoverCore(allocatedProcessors);
    ExecutorBuilder(SearchRelevanceExecThreadPoolName, CoreThreads(allocatedProcessors), MaxThreads(allocatedProcessors), KeepAliveMinutes)
  }

  /** A `TaskExecutor`: over a named pool of a thread pool, or running tasks inline (`Runnable::run`). */
  datatype TaskExecutor = PoolExecutor(threadPool: nat, poolName: string) | InlineExecutor

  /** The static `taskExecutor` field and the two static methods that use it. */
  class SearchRelevanceExecutor {
    var taskExecutor: Option<TaskExecutor>

    constructor ()
      ensures taskExecutor.None?
    {
      taskExecutor := None;
    }

    /**
     * `initialize`: a null thread pool is refused and leaves the field as
     * it was; otherwise the field holds an executor over this plugin's pool.
     */
    method Initialize(threadPool: Option<nat>) returns (error: Option<Throwable>)
      modifies this
      ensures threadPool.None? ==> error == Some(Throwable(IllegalArgumentException, NullThreadPoolMessage, None))
      ensures threadPool.None? ==> taskExecutor == old(taskExecutor)
      ensures threadPool.Some? ==> error.None?
      ensures threadPool.Some? ==> taskExecutor == Some(PoolExecutor(threadPool.value, SearchRelevanceExecThreadPoolName))
    {
      if threadPool.None? {
        return Some(Throwable(IllegalArgumentException, NullThreadPoolMessage, None));
      }
      taskExecutor := Some(PoolExecutor(threadPool.value, SearchRelevanceExecThreadPoolName));
      error := None;
    }

    /** `getExecutor`: the initialized executor, or an inline one; never null. */
    method GetExecutor() returns (executor: TaskExecutor)
      ensures taskExecutor.Some? ==> executor == taskExecutor.value
      ensures taskExecutor.None? ==> executor == InlineExecutor
    {
      executor := if taskExecutor.Some? then taskExecutor.value else InlineExecutor;
    }
  }
}
