/**
 * `HybridOptimizerExperimentProcessor`: runs one query text of a hybrid
 * optimizer experiment. It creates one experiment variant per parameter
 * combination, merges the ratings of all judgments for the query text,
 * schedules one batch of variant tasks per search configuration on the
 * task manager, and answers with the evaluation results of every
 * configuration that produced some. Only the first failure, judged by a
 * compare-and-set on the shared failure flag, reaches the listener.
 *
 * The asynchronous stages are separate steps: `ProcessHybridOptimizerExperiment`
 * runs up to the scheduling, with the judgment lookups' outcomes as input,
 * and `OnConfigurationsSettled` is the callback that runs once every batch
 * future is resolved.
 */
module HybridProcessor {
  import opened Common
  import opened Concurrent
  import opened Model
  import opened QuerySource
  import opened JudgmentRatings
  import opened TaskContext
  import opened TaskManager

  const FailedJudgmentsMessage: string := "Failed to process judgments"
  const FailedConfigurationsMessage: string := "Failed to process search configurations"

  // ---------------------------------------------------------------------
  // Variant creation
  // ---------------------------------------------------------------------

  /** One parameter combination of the hybrid search options. */
  datatype VariantCombination = VariantCombination(
    normalizationTechnique: string,
    combinationTechnique: string,
    queryWeightsForCombination: seq<real>)

  /** The variant's parameters: exactly the three option keys. */
  function VariantParameters(c: VariantCombination, keys: OptionKeys): map<string, Json>
  {
    map[keys.normalizationTechnique := JStr(c.normalizationTechnique),
        keys.combinationTechnique := JStr(c.combinationTechnique),
        keys.weightsForCombination := JFloatArray(c.queryWeightsForCombination)]
  }

  /** The lightweight variant created for a combination: new, processing, without results. */
  function NewVariant(experimentId: string, c: VariantCombination, keys: OptionKeys, id: string, timestamp: string): ExperimentVariant
  {
    ExperimentVariant(id, timestamp, HybridOptimizer, Processing, experimentId, VariantParameters(c, keys), map[])
  }

  /** With distinct keys, the parameters hold the three keys and nothing else, each with its value. */
  lemma VariantParametersExact(c: VariantCombination, keys: OptionKeys)
    requires DistinctKeys(keys)
    ensures VariantParameters(c, keys).Keys == {keys.normalizationTechnique, keys.combinationTechnique, keys.weightsForCombination}
    ensures VariantParameters(c, keys)[keys.normalizationTechnique] == JStr(c.normalizationTechnique)
    ensures VariantParameters(c, keys)[keys.combinationTechnique] == JStr(c.combinationTechnique)
    ensures VariantParameters(c, keys)[keys.weightsForCombination] == JFloatArray(c.queryWeightsForCombination)
  {
  }

  /**
   * Every created variant yields a temporary search pipeline, and that
   * pipeline carries the combination's two techniques and its weights.
   */
  lemma VariantBuildsItsPipeline(c: VariantCombination, keys: OptionKeys)
    requires DistinctKeys(keys)
    ensures CreateDefinitionOfTemporarySearchPipeline(VariantParameters(c, keys), keys).Ok?
    ensures ReadPipeline(CreateDefinitionOfTemporarySearchPipeline(VariantParameters(c, keys), keys).value)
      == Some(PipelineSettings(JStr(c.normalizationTechnique), JStr(c.combinationTechnique), Some(c.queryWeightsForCombination)))
  {
    VariantParametersExact(c, keys);
    TemporaryPipelineCarriesParameters(VariantParameters(c, keys), keys);
  }

  /** The variants created for the combinations, in order. */
  function NewVariants(experimentId: string, combinations: seq<VariantCombination>, keys: OptionKeys,
                       ids: seq<string>, timestamps: seq<string>): seq<ExperimentVariant>
    requires |ids| == |combinations| && |timestamps| == |combinations|
  {
    seq(|combinations|, i requires 0 <= i < |combinations| => NewVariant(experimentId, combinations[i], keys, ids[i], timestamps[i]))
  }

  /**
   * The variant loop. `Map.of` refuses a repeated key, so with non-distinct
   * keys the first iteration throws; otherwise variant i is the new variant
   * for combination i, with the i-th fresh id and timestamp.
   */
  method CreateVariants(experimentId: string, combinations: seq<VariantCombination>, keys: OptionKeys,
                        ids: seq<string>, timestamps: seq<string>) returns (r: Result<seq<ExperimentVariant>>)
    requires |ids| == |combinations| && |timestamps| == |combinations|
    ensures r.Err? <==> |combinations| > 0 && !DistinctKeys(keys)
    ensures r.Err? ==> r.error.kind.IllegalArgumentException?
    ensures r.Ok? ==> |r.value| == |combinations|
    ensures r.Ok? ==> forall i :: 0 <= i < |combinations| ==>
      r.value[i] == NewVariant(experimentId, combinations[i], keys, ids[i], timestamps[i])
  {
    var variants: seq<ExperimentVariant> := [];
    var i := 0;
    while i < |combinations|
      invariant 0 <= i <= |combinations| && |variants| == i
      invariant i > 0 ==> DistinctKeys(keys)
      invariant forall k :: 0 <= k < i ==> variants[k] == NewVariant(experimentId, combinations[k], keys, ids[k], timestamps[k])
    {
      if !DistinctKeys(keys) {
        return Err(Throwable(IllegalArgumentException, "", None));
      }
      variants := variants + [NewVariant(experimentId, combinations[i], keys, ids[i], timestamps[i])];
      i := i + 1;
    }
    r := Ok(variants);
  }

  // ---------------------------------------------------------------------
  // Judgments
  // ---------------------------------------------------------------------

  /** The `docIdToScores` hash map the judgment ratings are copied into. */
  class ScoreMap {
    var entries: map<string, string>

    constructor ()
      ensures entries == map[]
    {
      entries := map[];
    }

    method Put(docId: string, rating: string)
      modifies this
      ensures entries == old(entries)[docId := rating]
    {
      entries := entries[docId := rating];
    }
  }

  /**
   * `extractJudgmentScores`: nothing for a response without hits;
   * otherwise scans the entries for the first one of `queryText`, copies
   * its pairs (unless its list is null) and stops.
   */
  method ExtractJudgmentScores(queryText: string, response: JudgmentResponse, scores: ScoreMap)
    modifies scores
    ensures scores.entries == PutAll(old(scores.entries), Contributed(queryText, response))
  {
    if response.totalHits == 0 {
      return;
    }
    var entries := response.judgmentRatings;
    var i := 0;
    while i < |entries|
      invariant 0 <= i <= |entries|
      invariant forall j :: 0 <= j < i ==> !Matches(entries[j], queryText)
      invariant scores.entries == old(scores.entries)
    {
      if entries[i].query == Some(queryText) {
        assert FirstMatch(entries, queryText) == Some(i);
        if entries[i].ratings.Some? {
          var ratings := entries[i].ratings.value;
          var k := 0;
          while k < |ratings|
            invariant 0 <= k <= |ratings|
            invariant scores.entries == PutAll(old(scores.entries), ratings[..k])
          {
            assert ratings[..k + 1][..k] == ratings[..k];
            scores.Put(ratings[k].docId, ratings[k].rating);
            k := k + 1;
          }
          assert ratings[..|ratings|] == ratings;
        }
        return;
      }
      i := i + 1;
    }
  }

  /** The responses of judgment lookups that all succeeded. */
  function Responses(fetched: seq<Result<JudgmentResponse>>): (responses: seq<JudgmentResponse>)
    requires forall i :: 0 <= i < |fetched| ==> fetched[i].Ok?
    ensures |responses| == |fetched|
    ensures forall i :: 0 <= i < |fetched| ==> responses[i] == fetched[i].value
  {
    seq(|fetched|, i requires 0 <= i < |fetched| => fetched[i].value)
  }

  /**
   * `processJudgmentsAsync`: fails if any lookup failed (the model reports
   * the failure of the earliest lookup in list order); otherwise the
   * ratings of all judgments merged in list order.
   */
  method ProcessJudgments(queryText: string, fetched: seq<Result<JudgmentResponse>>) returns (r: Result<map<string, string>>)
    ensures r.Err? <==> exists i :: 0 <= i < |fetched| && fetched[i].Err?
    ensures r.Err? ==> exists i :: 0 <= i < |fetched| && fetched[i] == Err(r.error)
    ensures r.Ok? ==> r.value == MergedScores(queryText, Responses(fetched), map[])
  {
    var i := 0;
    while i < |fetched|
      invariant 0 <= i <= |fetched|
      invariant forall j :: 0 <= j < i ==> fetched[j].Ok?
    {
      if fetched[i].Err? {
        return Err(fetched[i].error);
      }
      i := i + 1;
    }
    var responses := Responses(fetched);
    var scores := new ScoreMap();
    var k := 0;
    while k < |responses|
      invariant 0 <= k <= |responses|
      invariant scores.entries == MergedScores(queryText, responses[..k], map[])
    {
      assert responses[..k + 1][..k] == responses[..k];
      assert MergedScores(queryText, responses[..k + 1], map[])
        == PutAll(MergedScores(queryText, responses[..k], map[]), Contributed(queryText, responses[k]));
      ExtractJudgmentScores(queryText, responses[k], scores);
      k := k + 1;
    }
    assert responses[..|responses|] == responses;
    r := Ok(scores.entries);
  }

  // ---------------------------------------------------------------------
  // Search configurations
  // ---------------------------------------------------------------------

  /** A search configuration to run: its id, and the index and query template it names. */
  datatype ConfigTarget = ConfigTarget(searchConfigId: string, index: string, query: string)

  /** One entry of `searchConfigurationResults`. */
  datatype ConfigResult = ConfigResult(searchConfigurationId: string, evaluationResults: seq<EvalRef>)

  /**
   * The configurations whose batch produced evaluation results, in
   * configuration order; a batch with none is left out.
   */
  function Collected(configIds: seq<string>, results: seq<BatchResult>): seq<ConfigResult>
    requires |configIds| == |results|
  {
    if configIds == [] then []
    else
      var n := |configIds| - 1;
      Collected(configIds[..n], results[..n])
        + (if results[n].evaluationResults != [] then [ConfigResult(configIds[n], results[n].evaluationResults)] else [])
  }

  /** An entry is collected iff some configuration's batch produced exactly those non-empty results. */
  lemma {:induction false} CollectedExactly(configIds: seq<string>, results: seq<BatchResult>, entry: ConfigResult)
    requires |configIds| == |results|
    ensures entry in Collected(configIds, results) <==>
      exists i :: 0 <= i < |configIds| && configIds[i] == entry.searchConfigurationId
        && results[i].evaluationResults == entry.evaluationResults && entry.evaluationResults != []
  {
    if configIds != [] {
      var n := |configIds| - 1;
      CollectedExactly(configIds[..n], results[..n], entry);
      var prev := Collected(configIds[..n], results[..n]);
      var last := if results[n].evaluationResults != [] then [ConfigResult(configIds[n], results[n].evaluationResults)] else [];
      assert Collected(configIds, results) == prev + last;
      assert entry in prev + last <==> entry in prev || entry in last;
      if entry in prev {
        var i :| 0 <= i < n && configIds[..n][i] == entry.searchConfigurationId
          && results[..n][i].evaluationResults == entry.evaluationResults && entry.evaluationResults != [];
        assert configIds[i] == entry.searchConfigurationId && results[i].evaluationResults == entry.evaluationResults;
      }
      if exists i :: 0 <= i < |configIds| && configIds[i] == entry.searchConfigurationId
          && results[i].evaluationResults == entry.evaluationResults && entry.evaluationResults != [] {
        var i :| 0 <= i < |configIds| && configIds[i] == entry.searchConfigurationId
          && results[i].evaluationResults == entry.evaluationResults && entry.evaluationResults != [];
        if i < n {
          assert configIds[..n][i] == configIds[i] && results[..n][i] == results[i];
        }
      }
    }
  }

  /** At most one entry is collected per configuration. */
  lemma {:induction false} CollectedBounded(configIds: seq<string>, results: seq<BatchResult>)
    requires |configIds| == |results|
    ensures |Collected(configIds, results)| <= |configIds|
  {
    if configIds != [] {
      CollectedBounded(configIds[..|configIds| - 1], results[..|configIds| - 1]);
    }
  }

  /** Task `t` runs variant `variant` of configuration `target` with these ratings. */
  ghost predicate RunsVariant(t: VariantTask, target: ConfigTarget, variant: ExperimentVariant, docIdToScores: map<string, string>)
  {
    && t.observed
    && t.params.searchConfigId == target.searchConfigId
    && t.params.index == target.index
    && t.params.query == target.query
    && t.params.experimentVariant == variant
    && t.params.docIdToScores == docIdToScores
  }

  /**
   * Batch k of `slots` was scheduled as batch `firstBatch + k`: its task j
   * lies at or after `from` and runs variant j of configuration k.
   */
  ghost predicate BatchesScheduled(tasks: seq<VariantTask>, from: nat, slots: seq<seq<nat>>, configs: seq<ConfigTarget>,
                                   variants: seq<ExperimentVariant>, docIdToScores: map<string, string>, firstBatch: nat)
  {
    && |slots| <= |configs|
    && forall k :: 0 <= k < |slots| ==>
      && |slots[k]| == |variants|
      && forall j :: 0 <= j < |variants| ==>
        && from <= slots[k][j] < |tasks|
        && tasks[slots[k][j]].batch == firstBatch + k
        && RunsVariant(tasks[slots[k][j]], configs[k], variants[j], docIdToScores)
  }

  /** Scheduling more tasks, without touching earlier ones, keeps earlier batches as they were. */
  lemma BatchesScheduledStable(tasks: seq<VariantTask>, later: seq<VariantTask>, from: nat, slots: seq<seq<nat>>,
                               configs: seq<ConfigTarget>, variants: seq<ExperimentVariant>,
                               docIdToScores: map<string, string>, firstBatch: nat)
    requires BatchesScheduled(tasks, from, slots, configs, variants, docIdToScores, firstBatch)
    requires |later| >= |tasks| && forall i :: 0 <= i < |tasks| ==> later[i] == tasks[i]
    ensures BatchesScheduled(later, from, slots, configs, variants, docIdToScores, firstBatch)
  {
  }

  /** A batch whose task j runs variant j of the next configuration extends the scheduled batches. */
  lemma BatchesScheduledExtend(tasks: seq<VariantTask>, from: nat, slots: seq<seq<nat>>, configs: seq<ConfigTarget>,
                               variants: seq<ExperimentVariant>, docIdToScores: map<string, string>, firstBatch: nat,
                               batchSlots: seq<nat>)
    requires BatchesScheduled(tasks, from, slots, configs, variants, docIdToScores, firstBatch)
    requires |slots| < |configs| && |batchSlots| == |variants|
    requires forall j :: 0 <= j < |variants| ==>
      && from <= batchSlots[j] < |tasks|
      && tasks[batchSlots[j]].batch == firstBatch + |slots|
      && RunsVariant(tasks[batchSlots[j]], configs[|slots|], variants[j], docIdToScores)
    ensures BatchesScheduled(tasks, from, slots + [batchSlots], configs, variants, docIdToScores, firstBatch)
  {
    var next := slots + [batchSlots];
    forall k | 0 <= k < |next|
      ensures |next[k]| == |variants|
      ensures forall j :: 0 <= j < |variants| ==>
        && from <= next[k][j] < |tasks|
        && tasks[next[k][j]].batch == firstBatch + k
        && RunsVariant(tasks[next[k][j]], configs[k], variants[j], docIdToScores)
    {
      if k < |slots| {
        assert next[k] == slots[k];
      } else {
        assert next[k] == batchSlots;
      }
    }
  }

  class HybridOptimizerExperimentProcessor {
    const taskManager: HybridSearchTaskManager

    constructor (taskManager: HybridSearchTaskManager)
      ensures this.taskManager == taskManager
    {
      this.taskManager := taskManager;
    }

    /**
     * The scheduling loop of `processSearchConfigurationsAsync`: one batch
     * per configuration, each over every variant. Every batch is handed the
     * same `hydratedResults` map, which nothing writes, so each batch's
     * context starts from an empty copy of it.
     * `poolAccepts[i]` says which runnables of batch i the pool accepts.
     */
    method ScheduleSearchConfigurations(
      experimentId: string, queryText: string, configs: seq<ConfigTarget>, judgmentIds: seq<string>, size: int,
      variants: seq<ExperimentVariant>, docIdToScores: map<string, string>, hasFailure: AtomicFlag,
      poolAccepts: seq<seq<bool>>)
      returns (futures: seq<Promise<BatchResult>>, ghost slots: seq<seq<nat>>)
      requires taskManager.Valid()
      requires |poolAccepts| == |configs|
      requires forall i :: 0 <= i < |configs| ==> |poolAccepts[i]| == |variants|
      modifies taskManager, taskManager.concurrencyControl
      ensures taskManager.Valid()
      ensures |futures| == |configs| && |slots| == |configs|
      ensures taskManager.batches == old(taskManager.batches) + |configs|
      ensures forall i :: 0 <= i < |configs| ==> fresh(futures[i]) && futures[i].Valid() && futures[i].state.Pending?
      ensures |taskManager.tasks| >= old(|taskManager.tasks|)
      ensures forall i :: 0 <= i < old(|taskManager.tasks|) ==> taskManager.tasks[i] == old(taskManager.tasks)[i]
      ensures BatchesScheduled(taskManager.tasks, old(|taskManager.tasks|), slots, configs, variants, docIdToScores,
                               old(taskManager.batches))
    {
      futures := [];
      slots := [];
      var hydratedResults: map<string, map<string, string>> := map[];
      // hydratedResults is never written, unlike the batch contexts' copies.
      var i := 0;
      while i < |configs|
        invariant 0 <= i <= |configs| && |futures| == i && |slots| == i
        invariant taskManager.Valid()
        invariant taskManager.batches == old(taskManager.batches) + i
        invariant |taskManager.tasks| >= old(|taskManager.tasks|)
        invariant forall k :: 0 <= k < i ==> fresh(futures[k]) && futures[k].Valid() && futures[k].state.Pending?
        invariant forall k :: 0 <= k < old(|taskManager.tasks|) ==> taskManager.tasks[k] == old(taskManager.tasks)[k]
        invariant BatchesScheduled(taskManager.tasks, old(|taskManager.tasks|), slots, configs, variants, docIdToScores,
                                   old(taskManager.batches))
      {
        ghost var before := taskManager.tasks;
        var _, future, batchSlots := taskManager.ScheduleTasksAsync(
          experimentId, configs[i].searchConfigId, configs[i].index, configs[i].query, queryText, size,
          variants, judgmentIds, docIdToScores, hydratedResults, hasFailure, poolAccepts[i]);
        BatchesScheduledStable(before, taskManager.tasks, old(|taskManager.tasks|), slots, configs, variants,
          docIdToScores, old(taskManager.batches));
        BatchesScheduledExtend(taskManager.tasks, old(|taskManager.tasks|), slots, configs, variants,
          docIdToScores, old(taskManager.batches), batchSlots);
        futures := futures + [future];
        slots := slots + [batchSlots];
        i := i + 1;
      }
    }

    /**
     * `processHybridOptimizerExperiment` up to the scheduling. A repeated
     * option key throws to the caller. A failed judgment lookup fails the
     * run, reported only by the caller that wins the failure flag, and
     * schedules nothing; otherwise every configuration is scheduled with
     * the merged ratings.
     */
    method ProcessHybridOptimizerExperiment(
      experimentId: string, queryText: string, configs: seq<ConfigTarget>, judgmentIds: seq<string>, size: int,
      combinations: seq<VariantCombination>, keys: OptionKeys, ids: seq<string>, timestamps: seq<string>,
      fetched: seq<Result<JudgmentResponse>>, hasFailure: AtomicFlag, listener: Listener<seq<ConfigResult>>,
      poolAccepts: seq<seq<bool>>)
      returns (r: Result<seq<Promise<BatchResult>>>, ghost slots: seq<seq<nat>>)
      requires taskManager.Valid()
      requires |ids| == |combinations| && |timestamps| == |combinations|
      requires |poolAccepts| == |configs|
      requires forall i :: 0 <= i < |configs| ==> |poolAccepts[i]| == |combinations|
      modifies taskManager, taskManager.concurrencyControl, hasFailure, listener
      ensures taskManager.Valid()
      ensures r.Err? <==> |combinations| > 0 && !DistinctKeys(keys)
      ensures r.Err? || (exists i :: 0 <= i < |fetched| && fetched[i].Err?) ==>
        taskManager.batches == old(taskManager.batches) && taskManager.tasks == old(taskManager.tasks)
      ensures r.Ok? && (exists i :: 0 <= i < |fetched| && fetched[i].Err?) ==>
        && hasFailure.value
        && |listener.events| == |old(listener.events)| + (if old(hasFailure.value) then 0 else 1)
        && listener.events[..|old(listener.events)|] == old(listener.events)
        && (!old(hasFailure.value) ==>
              listener.events[|old(listener.events)|].FailedWith?
              && listener.events[|old(listener.events)|].error.message == FailedJudgmentsMessage)
      ensures r.Ok? && (forall i :: 0 <= i < |fetched| ==> fetched[i].Ok?) ==>
        |r.value| == |configs| && taskManager.batches == old(taskManager.batches) + |configs|
        && hasFailure.value == old(hasFailure.value) && listener.events == old(listener.events)
      ensures |taskManager.tasks| >= old(|taskManager.tasks|)
      ensures forall i :: 0 <= i < old(|taskManager.tasks|) ==> taskManager.tasks[i] == old(taskManager.tasks)[i]
      ensures r.Ok? && (forall i :: 0 <= i < |fetched| ==> fetched[i].Ok?) ==>
        && |slots| == |configs|
        && BatchesScheduled(taskManager.tasks, old(|taskManager.tasks|), slots, configs,
                            NewVariants(experimentId, combinations, keys, ids, timestamps),
                            MergedScores(queryText, Responses(fetched), map[]), old(taskManager.batches))
    {
      var variants := CreateVariants(experimentId, combinations, keys, ids, timestamps);
      if variants.Err? {
        return Err(variants.error), [];
      }
      assert variants.value == NewVariants(experimentId, combinations, keys, ids, timestamps);
      var scores := ProcessJudgments(queryText, fetched);
      if scores.Err? {
        var won := hasFailure.CompareAndSet(false, true);
        if won {
          listener.OnFailure(Throwable(OtherException, FailedJudgmentsMessage, Some(scores.error)));
        }
        return Ok([]), [];
      }
      var futures;
      futures, slots := ScheduleSearchConfigurations(experimentId, queryText, configs, judgmentIds, size,
        variants.value, scores.value, hasFailure, poolAccepts);
      r := Ok(futures);
    }
  }

  /** The earliest failed future's error. */
  function FirstFailure(states: seq<FutureState<BatchResult>>): (e: Throwable)
    requires exists i :: 0 <= i < |states| && states[i].Failed?
    ensures exists i :: 0 <= i < |states| && states[i] == Failed(e)
  {
    if states[0].Failed? then states[0].error
    else
      assert exists i :: 0 <= i < |states[1..]| && states[1..][i].Failed? by {
        var i :| 0 <= i < |states| && states[i].Failed?;
        assert states[1..][i - 1] == states[i];
      }
      var e := FirstFailure(states[1..]);
      assert exists i :: 0 <= i < |states[1..]| && states[1..][i] == Failed(e);
      var i :| 0 <= i < |states[1..]| && states[1..][i] == Failed(e);
      assert states[i + 1] == Failed(e);
      e
  }

  /** The results of futures that all completed normally. */
  function Values(states: seq<FutureState<BatchResult>>): (values: seq<BatchResult>)
    requires forall i :: 0 <= i < |states| ==> states[i].Done?
    ensures |values| == |states|
    ensures forall i :: 0 <= i < |states| ==> values[i] == states[i].value
  {
    seq(|states|, i requires 0 <= i < |states| => states[i].value)
  }

  /**
   * The callback of `allOf` over the batch futures, once they are all
   * resolved: if every batch completed, the listener gets the collected
   * results, whatever the failure flag says; if one failed, the failure is
   * reported only by the caller that wins the flag.
   */
  method OnConfigurationsSettled(configIds: seq<string>, states: seq<FutureState<BatchResult>>,
                                 hasFailure: AtomicFlag, listener: Listener<seq<ConfigResult>>)
    requires |states| == |configIds|
    requires forall i :: 0 <= i < |states| ==> !states[i].Pending?
    modifies hasFailure, listener
    ensures (forall i :: 0 <= i < |states| ==> states[i].Done?) ==>
      && hasFailure.value == old(hasFailure.value)
      && listener.events == old(listener.events) + [Responded(Collected(configIds, Values(states)))]
    ensures (exists i :: 0 <= i < |states| && states[i].Failed?) ==>
      && hasFailure.value
      && listener.events == old(listener.events)
           + (if old(hasFailure.value) then []
              else [FailedWith(Throwable(OtherException, FailedConfigurationsMessage, Some(FirstFailure(states))))])
  {
    var i := 0;
    while i < |states|
      invariant 0 <= i <= |states|
      invariant forall j :: 0 <= j < i ==> states[j].Done?
    {
      if states[i].Failed? {
        var won := hasFailure.CompareAndSet(false, true);
        if won {
          listener.OnFailure(Throwable(OtherException, FailedConfigurationsMessage, Some(FirstFailure(states))));
        }
        return;
      }
      i := i + 1;
    }
    listener.OnResponse(Collected(configIds, Values(states)));
  }
}
