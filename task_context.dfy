/**
 * `ExperimentTaskContext`: the coordinator of one batch of experiment
 * variants (one search configuration and one query). It counts the variants
 * that are still running, that succeeded and that failed, and when the last
 * one reports it completes the batch future with a summary and a status.
 */
module TaskContext {
  import opened Common
  import opened Concurrent
  import opened Model

  /** `ExperimentBatchStatus`. */
  datatype BatchStatus = Success | PartialSuccess | AllFailed

  /**
   * The status `finishExperiment` reports: all failed when the failure
   * count equals the total, partial when some failed, success otherwise.
   * Once every variant has reported (`failed <= total`, `total > 0`) each
   * status holds exactly in its own case.
   */
  function Classify(total: nat, failed: nat): (s: BatchStatus)
    ensures failed == total ==> s == AllFailed
    ensures 0 < total && failed <= total ==>
      && (s == AllFailed <==> failed == total)
      && (s == PartialSuccess <==> 0 < failed < total)
      && (s == Success <==> failed == 0)
  {
    if failed == total then AllFailed
    else if failed > 0 then PartialSuccess
    else Success
  }

  /** One `{evaluationId, experimentVariantId}` entry of `evaluationResults`. */
  datatype EvalRef = EvalRef(evaluationId: string, experimentVariantId: string)

  /** The `summary` map of the batch result. */
  datatype Summary = Summary(totalVariants: nat, successfulVariants: nat, failedVariants: nat)

  /** The map the batch future is completed with. */
  datatype BatchResult = BatchResult(
    searchConfigurationId: string,
    evaluationResults: seq<EvalRef>,
    summary: Summary,
    status: BatchStatus)

  /** The variant ids listed in `refs`. */
  function VariantIds(refs: seq<EvalRef>): set<string>
  {
    set i | 0 <= i < |refs| :: refs[i].experimentVariantId
  }

  /** `refs` lists every entry of `m` exactly once, with no other entry. */
  predicate ListsExactly(refs: seq<EvalRef>, m: map<string, string>)
  {
    && |refs| == |m|
    && VariantIds(refs) == m.Keys
    && (forall i :: 0 <= i < |refs| ==> refs[i].experimentVariantId in m && m[refs[i].experimentVariantId] == refs[i].evaluationId)
    && (forall i, j :: 0 <= i < j < |refs| ==> refs[i].experimentVariantId != refs[j].experimentVariantId)
  }

  // ---------------------------------------------------------------------
  // The counters as a pure state machine
  // ---------------------------------------------------------------------

  /**
   * The three `AtomicInteger`s. `remaining` is an `int`: completions beyond
   * the total drive `decrementAndGet` below zero.
   */
  datatype Counters = Counters(total: nat, remaining: int, successful: nat, failed: nat)

  /** The counters a new context starts with. */
  function Initial(total: nat): (c: Counters)
    ensures c.total == total && c.remaining == total && c.successful == 0 && c.failed == 0
  {
    Counters(total, total, 0, 0)
  }

  /**
   * One `completeVariantSuccess` (true) or `completeVariantFailure` (false):
   * bumps its own counter only and takes one from `remaining`, so the sum
   * of the three stays equal to the total.
   */
  function Record(c: Counters, success: bool): (d: Counters)
    ensures d.total == c.total && d.remaining == c.remaining - 1
    ensures d.successful == c.successful + (if success then 1 else 0)
    ensures d.failed == c.failed + (if success then 0 else 1)
    ensures c.successful + c.failed + c.remaining == c.total ==> d.successful + d.failed + d.remaining == d.total
  {
    if success then c.(remaining := c.remaining - 1, successful := c.successful + 1)
    else c.(remaining := c.remaining - 1, failed := c.failed + 1)
  }

  /** The counters after the completions `outcomes`, in order. */
  function Replay(c: Counters, outcomes: seq<bool>): Counters
  {
    if outcomes == [] then c
    else Record(Replay(c, outcomes[..|outcomes| - 1]), outcomes[|outcomes| - 1])
  }

  /** How many of `outcomes` are `b`. */
  function CountOf(outcomes: seq<bool>, b: bool): (n: nat)
    ensures n <= |outcomes|
  {
    if outcomes == [] then 0
    else CountOf(outcomes[..|outcomes| - 1], b) + (if outcomes[|outcomes| - 1] == b then 1 else 0)
  }

  /**
   * How many of the completions `outcomes` run `finishExperiment`: those
   * whose `decrementAndGet` returns exactly 0.
   */
  function FinishCount(c: Counters, outcomes: seq<bool>): nat
  {
    if outcomes == [] then 0
    else
      var before := Replay(c, outcomes[..|outcomes| - 1]);
      FinishCount(c, outcomes[..|outcomes| - 1]) + (if before.remaining - 1 == 0 then 1 else 0)
  }

  /** Successes and failures each count once, and every completion takes one from `remaining`. */
  lemma {:induction false} ReplayCounters(c: Counters, outcomes: seq<bool>)
    ensures Replay(c, outcomes) == Counters(c.total, c.remaining - |outcomes|,
      c.successful + CountOf(outcomes, true), c.failed + CountOf(outcomes, false))
    ensures CountOf(outcomes, true) + CountOf(outcomes, false) == |outcomes|
  {
    if outcomes != [] {
      ReplayCounters(c, outcomes[..|outcomes| - 1]);
    }
  }

  /**
   * `finishExperiment` runs exactly once if the completions reach the
   * starting `remaining` (and it was positive) and never otherwise; in
   * particular never for a batch of zero variants.
   */
  lemma {:induction false} FinishCountExact(c: Counters, outcomes: seq<bool>)
    ensures FinishCount(c, outcomes) == if 0 < c.remaining <= |outcomes| then 1 else 0
  {
    if outcomes != [] {
      var prefix := outcomes[..|outcomes| - 1];
      FinishCountExact(c, prefix);
      ReplayCounters(c, prefix);
    }
  }

  /** From a new context: the counters after any completions, and the finish at most once. */
  lemma BatchAccounting(total: nat, outcomes: seq<bool>)
    ensures var c := Replay(Initial(total), outcomes);
      c.successful + c.failed + c.remaining == total
      && c.successful == CountOf(outcomes, true) && c.failed == CountOf(outcomes, false)
    ensures FinishCount(Initial(total), outcomes) <= 1
    ensures FinishCount(Initial(total), outcomes) == 1 <==> 0 < total <= |outcomes|
    ensures total == 0 ==> FinishCount(Initial(total), outcomes) == 0
  {
    ReplayCounters(Initial(total), outcomes);
    FinishCountExact(Initial(total), outcomes);
  }

  // ---------------------------------------------------------------------
  // The context object
  // ---------------------------------------------------------------------

  /** A variant write started by `scheduleVariantWrite`, whose DAO callback is still to come. */
  datatype VariantWriteRequest = VariantWriteRequest(variant: ExperimentVariant, evaluationId: string, isSuccess: bool)

  class ExperimentTaskContext {
    const experimentId: string
    const searchConfigId: string
    const queryText: string
    const totalVariants: nat
    const resultFuture: Promise<BatchResult>
    const hasFailure: AtomicFlag

    /** `configToExperimentVariants`: search configuration id to (variant id to evaluation id). */
    var configToExperimentVariants: map<string, map<string, string>>

    var remainingVariants: int
    var successfulVariants: nat
    var failedVariants: nat

    /** The completions so far, `true` for a success. */
    ghost var outcomes: seq<bool>
    /** How many times `finishExperiment` has run. */
    ghost var finishes: nat
    /** The variant writes started so far, in order. */
    ghost var scheduledWrites: seq<VariantWriteRequest>
    /** The started variant writes whose callback has not run yet. */
    ghost var pendingWrites: multiset<VariantWriteRequest>

    function CountersNow(): Counters
      reads this
    {
      Counters(totalVariants, remainingVariants, successfulVariants, failedVariants)
    }

    ghost predicate Valid()
      reads this, resultFuture
    {
      && CountersNow() == Replay(Initial(totalVariants), outcomes)
      && finishes == FinishCount(Initial(totalVariants), outcomes)
      && pendingWrites <= multiset(scheduledWrites)
      && resultFuture.Valid()
    }

    constructor (experimentId: string, searchConfigId: string, queryText: string, totalVariants: nat,
                 configToExperimentVariants: map<string, map<string, string>>,
                 resultFuture: Promise<BatchResult>, hasFailure: AtomicFlag)
      requires resultFuture.Valid()
      ensures Valid()
      ensures this.experimentId == experimentId && this.searchConfigId == searchConfigId && this.queryText == queryText
      ensures this.totalVariants == totalVariants && this.resultFuture == resultFuture && this.hasFailure == hasFailure
      ensures this.configToExperimentVariants == configToExperimentVariants
      ensures remainingVariants == totalVariants && successfulVariants == 0 && failedVariants == 0
      ensures outcomes == [] && finishes == 0 && scheduledWrites == [] && pendingWrites == multiset{}
    {
      this.experimentId := experimentId;
      this.searchConfigId := searchConfigId;
      this.queryText := queryText;
      this.totalVariants := totalVariants;
      this.configToExperimentVariants := configToExperimentVariants;
      this.resultFuture := resultFuture;
      this.hasFailure := hasFailure;
      remainingVariants := totalVariants;
      successfulVariants := 0;
      failedVariants := 0;
      outcomes := [];
      finishes := 0;
      scheduledWrites := [];
      pendingWrites := multiset{};
    }

    /**
     * `scheduleVariantWrite`: starts the variant write on another thread
     * and returns at once. Nothing the context holds changes until the
     * write's callback, `OnVariantWritten`, runs.
     */
    method ScheduleVariantWrite(variant: ExperimentVariant, evaluationId: string, isSuccess: bool)
      requires Valid()
      modifies this
      ensures Valid()
      ensures scheduledWrites == old(scheduledWrites) + [VariantWriteRequest(variant, evaluationId, isSuccess)]
      ensures pendingWrites == old(pendingWrites) + multiset{VariantWriteRequest(variant, evaluationId, isSuccess)}
      ensures CountersNow() == old(CountersNow()) && outcomes == old(outcomes) && finishes == old(finishes)
      ensures configToExperimentVariants == old(configToExperimentVariants)
    {
      scheduledWrites := scheduledWrites + [VariantWriteRequest(variant, evaluationId, isSuccess)];
      pendingWrites := pendingWrites + multiset{VariantWriteRequest(variant, evaluationId, isSuccess)};
    }

    /**
     * The callback of a scheduled variant write. A successful write of a
     * successful variant whose configuration has a map records variant id
     * to evaluation id there; anything else changes nothing. The counters
     * and the batch future are never touched, so a write that lands after
     * `finishExperiment` is missing from the batch result. Each started
     * write calls back once: its request leaves the pending writes.
     */
    method OnVariantWritten(request: VariantWriteRequest, writeSucceeded: bool)
      requires Valid() && request in pendingWrites
      modifies this
      ensures Valid()
      ensures CountersNow() == old(CountersNow()) && outcomes == old(outcomes) && finishes == old(finishes)
      ensures scheduledWrites == old(scheduledWrites)
      ensures pendingWrites == old(pendingWrites) - multiset{request}
      ensures configToExperimentVariants ==
        if writeSucceeded && request.isSuccess && searchConfigId in old(configToExperimentVariants)
        then old(configToExperimentVariants)[searchConfigId :=
               old(configToExperimentVariants)[searchConfigId][request.variant.id := request.evaluationId]]
        else old(configToExperimentVariants)
    {
      if writeSucceeded && request.isSuccess && searchConfigId in configToExperimentVariants {
        var m := configToExperimentVariants[searchConfigId];
        configToExperimentVariants := configToExperimentVariants[searchConfigId := m[request.variant.id := request.evaluationId]];
      }
      pendingWrites := pendingWrites - multiset{request};
    }

    /** `completeVariantSuccess`. */
    method CompleteVariantSuccess()
      requires Valid()
      modifies this, resultFuture
      ensures Valid()
      ensures outcomes == old(outcomes) + [true]
      ensures CountersNow() == Record(old(CountersNow()), true)
      ensures configToExperimentVariants == old(configToExperimentVariants) && scheduledWrites == old(scheduledWrites)
      ensures old(remainingVariants) == 1 ==> finishes == old(finishes) + 1 && Finished(old(resultFuture.state))
      ensures old(remainingVariants) != 1 ==> finishes == old(finishes) && resultFuture.state == old(resultFuture.state)
    {
      successfulVariants := successfulVariants + 1;
      outcomes := outcomes + [true];
      CompleteVariant();
    }

    /** `completeVariantFailure`. */
    method CompleteVariantFailure()
      requires Valid()
      modifies this, resultFuture
      ensures Valid()
      ensures outcomes == old(outcomes) + [false]
      ensures CountersNow() == Record(old(CountersNow()), false)
      ensures configToExperimentVariants == old(configToExperimentVariants) && scheduledWrites == old(scheduledWrites)
      ensures old(remainingVariants) == 1 ==> finishes == old(finishes) + 1 && Finished(old(resultFuture.state))
      ensures old(remainingVariants) != 1 ==> finishes == old(finishes) && resultFuture.state == old(resultFuture.state)
    {
      failedVariants := failedVariants + 1;
      outcomes := outcomes + [false];
      CompleteVariant();
    }

    /**
     * `completeVariant`: takes one from `remaining` and finishes the batch
     * when that leaves exactly zero. Called with the new outcome already
     * recorded and `remaining` not yet decremented.
     */
    method CompleteVariant()
      requires |outcomes| > 0
      requires Counters(totalVariants, remainingVariants - 1, successfulVariants, failedVariants) == Replay(Initial(totalVariants), outcomes)
      requires finishes == FinishCount(Initial(totalVariants), outcomes[..|outcomes| - 1])
      requires pendingWrites <= multiset(scheduledWrites)
      requires resultFuture.Valid()
      modifies this, resultFuture
      ensures Valid()
      ensures successfulVariants == old(successfulVariants) && failedVariants == old(failedVariants)
      ensures remainingVariants == old(remainingVariants) - 1
      ensures outcomes == old(outcomes) && configToExperimentVariants == old(configToExperimentVariants)
      ensures scheduledWrites == old(scheduledWrites) && pendingWrites == old(pendingWrites)
      ensures old(remainingVariants) == 1 ==> finishes == old(finishes) + 1 && Finished(old(resultFuture.state))
      ensures old(remainingVariants) != 1 ==> finishes == old(finishes) && resultFuture.state == old(resultFuture.state)
    {
      ghost var prefix := outcomes[..|outcomes| - 1];
      assert outcomes == prefix + [outcomes[|outcomes| - 1]];
      remainingVariants := remainingVariants - 1;
      if remainingVariants == 0 {
        finishes := finishes + 1;
        FinishExperiment();
      }
    }

    /**
     * `r` is a result `finishExperiment` may build in the current state:
     * the configuration id, the recorded evaluations (in the unspecified
     * order of a hash map), the counters and their status.
     */
    predicate IsFinalResult(r: BatchResult)
      reads this
    {
      && r.searchConfigurationId == searchConfigId
      && (if searchConfigId in configToExperimentVariants
          then ListsExactly(r.evaluationResults, configToExperimentVariants[searchConfigId])
          else r.evaluationResults == [])
      && r.summary == Summary(totalVariants, successfulVariants, failedVariants)
      && r.status == Classify(totalVariants, failedVariants)
    }

    /** What `finishExperiment` leaves in the future: a final result, unless it was already completed. */
    ghost predicate Finished(before: FutureState<BatchResult>)
      reads this, resultFuture
    {
      if before.Pending? then resultFuture.state.Done? && IsFinalResult(resultFuture.state.value)
      else resultFuture.state == before
    }

    /**
     * `finishExperiment`: completes the batch future with the configuration
     * id, the evaluation results, the summary of the counters and the
     * status. A future already completed (for instance exceptionally by a
     * critical failure) is left as it was.
     */
    method FinishExperiment()
      requires resultFuture.Valid()
      modifies resultFuture
      ensures resultFuture.Valid()
      ensures Finished(old(resultFuture.state))
    {
      var evaluationResults := FormatEvaluationResults();
      var summary := Summary(totalVariants, successfulVariants, failedVariants);
      var status: BatchStatus;
      if failedVariants == totalVariants {
        status := AllFailed;
      } else if failedVariants > 0 {
        status := PartialSuccess;
      } else {
        status := Success;
      }
      var _ := resultFuture.Complete(BatchResult(searchConfigId, evaluationResults, summary, status));
    }

    /**
     * `formatEvaluationResults`: one entry per variant recorded for this
     * configuration, none if the configuration has no map.
     */
    method FormatEvaluationResults() returns (results: seq<EvalRef>)
      ensures searchConfigId in configToExperimentVariants ==> ListsExactly(results, configToExperimentVariants[searchConfigId])
      ensures searchConfigId !in configToExperimentVariants ==> results == []
    {
      results := [];
      if searchConfigId in configToExperimentVariants {
        var configMap := configToExperimentVariants[searchConfigId];
        results := FormatEntries(configMap);
      }
    }
  }

  /** Appending an entry adds exactly its variant id. */
  lemma AppendedIds(refs: seq<EvalRef>, r: EvalRef)
    ensures VariantIds(refs + [r]) == VariantIds(refs) + {r.experimentVariantId}
  {
    var next := refs + [r];
    forall x | x in VariantIds(next) ensures x in VariantIds(refs) + {r.experimentVariantId} {
      var i :| 0 <= i < |next| && next[i].experimentVariantId == x;
      if i < |refs| {
        assert refs[i].experimentVariantId == x;
      }
    }
    forall x | x in VariantIds(refs) ensures x in VariantIds(next) {
      var i :| 0 <= i < |refs| && refs[i].experimentVariantId == x;
      assert next[i].experimentVariantId == x;
    }
    assert next[|refs|].experimentVariantId == r.experimentVariantId;
  }

  /** Appending the entry of a key not yet listed keeps every entry faithful and distinct. */
  lemma AppendedEntry(refs: seq<EvalRef>, m: map<string, string>, k: string)
    requires forall i :: 0 <= i < |refs| ==> refs[i].experimentVariantId in m && m[refs[i].experimentVariantId] == refs[i].evaluationId
    requires forall i, j :: 0 <= i < j < |refs| ==> refs[i].experimentVariantId != refs[j].experimentVariantId
    requires k in m && k !in VariantIds(refs)
    ensures var next := refs + [EvalRef(m[k], k)];
      && VariantIds(next) == VariantIds(refs) + {k}
      && (forall i :: 0 <= i < |next| ==> next[i].experimentVariantId in m && m[next[i].experimentVariantId] == next[i].evaluationId)
      && (forall i, j :: 0 <= i < j < |next| ==> next[i].experimentVariantId != next[j].experimentVariantId)
  {
    var next := refs + [EvalRef(m[k], k)];
    AppendedIds(refs, EvalRef(m[k], k));
    forall i, j | 0 <= i < j < |next| ensures next[i].experimentVariantId != next[j].experimentVariantId {
      if j == |refs| {
        assert refs[i].experimentVariantId in VariantIds(refs);
      }
    }
  }

  /** The loop of `formatEvaluationResults`: appends one entry per key of `configMap`. */
  method FormatEntries(configMap: map<string, string>) returns (results: seq<EvalRef>)
    ensures ListsExactly(results, configMap)
  {
    results := [];
    var todo := configMap.Keys;
    while todo != {}
      invariant todo <= configMap.Keys
      invariant |results| + |todo| == |configMap|
      invariant VariantIds(results) == configMap.Keys - todo
      invariant forall i :: 0 <= i < |results| ==> results[i].experimentVariantId in configMap && configMap[results[i].experimentVariantId] == results[i].evaluationId
      invariant forall i, j :: 0 <= i < j < |results| ==> results[i].experimentVariantId != results[j].experimentVariantId
      decreases |todo|
    {
      var k :| k in todo;
      AppendedEntry(results, configMap, k);
      results := results + [EvalRef(configMap[k], k)];
      todo := todo - {k};
    }
    assert |configMap.Keys| == |configMap|;
  }
}
