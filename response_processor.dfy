/**
 * `SearchResponseProcessor`: turns the outcome of one variant's search into
 * exactly one success or failure on the batch context, tracks the best
 * configuration per query, and keeps the one-shot logging markers.
 */
module ResponseProcessor {
  import opened Common
  import opened Concurrent
  import opened Model
  import opened TaskContext

  // ---------------------------------------------------------------------
  // extractWeights
  // ---------------------------------------------------------------------

  const Unknown: string := "unknown"

  /** The last comma-separated field of a variant description. */
  function LastField(description: string): string
  {
    var parts := JavaSplit(description, ',');
    if parts == [] then [] else parts[|parts| - 1]
  }

  /**
   * `w` is what the weights of `field` read as: the field trimmed, with
   * every ';' turned into '/', so that `w` contains neither ';' nor ','.
   */
  ghost predicate WeightsRead(w: string, field: string)
  {
    var t := Trim(field);
    && |w| == |t|
    && (forall i :: 0 <= i < |w| ==> w[i] != ';' && w[i] != ',')
    && (forall i :: 0 <= i < |w| ==> w[i] == if t[i] == ';' then '/' else t[i])
  }

  /**
   * `extractWeights`: "unknown" for a null description or one with fewer
   * than three comma-separated fields; otherwise the weights read from the
   * last field.
   */
  function ExtractWeights(variantParams: Option<string>): (w: string)
    ensures variantParams.None? ==> w == Unknown
    ensures variantParams.Some? && |JavaSplit(variantParams.value, ',')| < 3 ==> w == Unknown
    ensures variantParams.Some? && |JavaSplit(variantParams.value, ',')| >= 3 ==>
      WeightsRead(w, LastField(variantParams.value))
  {
    if variantParams.None? then Unknown
    else
      var parts := JavaSplit(variantParams.value, ',');
      if |parts| >= 3 then
        JavaSplitFieldsAvoidSeparator(variantParams.value, ',', |parts| - 1);
        WeightsOfField(parts[|parts| - 1])
      else Unknown
  }

  /** The weights read from one field that holds no ','. */
  function WeightsOfField(field: string): (w: string)
    requires forall k :: 0 <= k < |field| ==> field[k] != ','
    ensures WeightsRead(w, field)
  {
    TrimIsSlice(field);
    var t := Trim(field);
    assert forall i :: 0 <= i < |t| ==> t[i] == field[LeadingTrimmed(field) + i];
    ReplaceChar(t, ';', '/')
  }

  // ---------------------------------------------------------------------
  // BestConfigurationTracker
  // ---------------------------------------------------------------------

  /** One `updateIfBetter` call: an NDCG score and the configuration that scored it. */
  datatype Candidate = Candidate(ndcg: real, configId: string, variantParams: Option<string>, query: string)

  /** The fields of a `BestConfigurationTracker`; a null field is `None`. */
  datatype TrackerState = TrackerState(
    bestNdcg: real,
    bestConfigId: Option<string>,
    bestVariantParams: Option<string>,
    bestWeights: Option<string>,
    queryText: Option<string>,
    variantsProcessed: nat)

  /** A new tracker: best NDCG -1.0, no configuration, nothing processed. */
  const InitialTracker: TrackerState := TrackerState(-1.0, None, None, None, None, 0)

  /** The tracker holding `c` as its best after `processed` calls. */
  function Holding(c: Candidate, processed: nat): TrackerState
  {
    TrackerState(c.ndcg, Some(c.configId), c.variantParams, Some(ExtractWeights(c.variantParams)), Some(c.query), processed)
  }

  /** `updateIfBetter`: always counts the call; adopts `c` only if it is strictly better. */
  function TrackerUpdate(s: TrackerState, c: Candidate): (t: TrackerState)
    ensures t.variantsProcessed == s.variantsProcessed + 1
    ensures t.bestNdcg >= s.bestNdcg
    ensures c.ndcg > s.bestNdcg ==> t == Holding(c, s.variantsProcessed + 1)
    ensures c.ndcg <= s.bestNdcg ==> t == s.(variantsProcessed := s.variantsProcessed + 1)
  {
    var processed := s.variantsProcessed + 1;
    if c.ndcg > s.bestNdcg then Holding(c, processed)
    else s.(variantsProcessed := processed)
  }

  /** A tracker after the calls `cs`, in order. */
  function Track(cs: seq<Candidate>): TrackerState
  {
    if cs == [] then InitialTracker else TrackerUpdate(Track(cs[..|cs| - 1]), cs[|cs| - 1])
  }

  /** `cs[i]` beats -1.0, every earlier score is lower and no later score is higher. */
  predicate IsFirstMax(cs: seq<Candidate>, i: int)
  {
    && 0 <= i < |cs|
    && cs[i].ndcg > -1.0
    && (forall j :: 0 <= j < i ==> cs[j].ndcg < cs[i].ndcg)
    && (forall j :: i < j < |cs| ==> cs[j].ndcg <= cs[i].ndcg)
  }

  /**
   * After any calls the tracker has counted them all, its best score is at
   * least -1.0 and at least every score it saw, and with no score above
   * -1.0 it is still empty.
   */
  lemma {:induction false} TrackBounds(cs: seq<Candidate>)
    ensures Track(cs).variantsProcessed == |cs|
    ensures (forall j :: 0 <= j < |cs| ==> cs[j].ndcg <= -1.0) ==> Track(cs) == InitialTracker.(variantsProcessed := |cs|)
    ensures Track(cs).bestNdcg >= -1.0
    ensures forall j :: 0 <= j < |cs| ==> cs[j].ndcg <= Track(cs).bestNdcg
  {
    if cs != [] {
      var prefix := cs[..|cs| - 1];
      TrackBounds(prefix);
      assert forall j :: 0 <= j < |prefix| ==> prefix[j] == cs[j];
    }
  }

  /**
   * The tracker holds the earliest of the highest scores above -1.0: a
   * later equal score never replaces it.
   */
  lemma {:induction false} TrackKeepsFirstMax(cs: seq<Candidate>, i: int)
    requires IsFirstMax(cs, i)
    ensures Track(cs) == Holding(cs[i], |cs|)
  {
    var prefix := cs[..|cs| - 1];
    var last := cs[|cs| - 1];
    TrackBounds(prefix);
    if i < |cs| - 1 {
      assert IsFirstMax(prefix, i);
      TrackKeepsFirstMax(prefix, i);
    } else {
      forall j | 0 <= j < |prefix| ensures prefix[j].ndcg < last.ndcg {
        assert prefix[j] == cs[j];
      }
      if exists j :: 0 <= j < |prefix| && prefix[j].ndcg > -1.0 {
        var k := FirstMax(prefix);
        TrackKeepsFirstMax(prefix, k);
      }
    }
  }

  /** The index of the earliest highest score of `cs`, when some score beats -1.0. */
  function FirstMax(cs: seq<Candidate>): (i: nat)
    requires exists j :: 0 <= j < |cs| && cs[j].ndcg > -1.0
    ensures IsFirstMax(cs, i)
  {
    var prefix := cs[..|cs| - 1];
    var last := cs[|cs| - 1];
    if exists j :: 0 <= j < |prefix| && prefix[j].ndcg > -1.0 then
      var k := FirstMax(prefix);
      assert forall j :: 0 <= j < |prefix| ==> prefix[j] == cs[j];
      if last.ndcg > prefix[k].ndcg then |cs| - 1 else k
    else
      assert forall j :: 0 <= j < |prefix| ==> prefix[j] == cs[j];
      |cs| - 1
  }

  /** `BestConfigurationTracker`. */
  class BestConfigurationTracker {
    var bestNdcg: real
    var bestConfigId: Option<string>
    var bestVariantParams: Option<string>
    var bestWeights: Option<string>
    var queryText: Option<string>
    var variantsProcessed: nat

    function State(): TrackerState
      reads this
    {
      TrackerState(bestNdcg, bestConfigId, bestVariantParams, bestWeights, queryText, variantsProcessed)
    }

    constructor ()
      ensures State() == InitialTracker
    {
      bestNdcg := -1.0;
      bestConfigId := None;
      bestVariantParams := None;
      bestWeights := None;
      queryText := None;
      variantsProcessed := 0;
    }

    /** `updateIfBetter`. */
    method UpdateIfBetter(ndcg: real, configId: string, variantParams: Option<string>, query: string)
      modifies this
      ensures State() == TrackerUpdate(old(State()), Candidate(ndcg, configId, variantParams, query))
    {
      variantsProcessed := variantsProcessed + 1;
      if ndcg > bestNdcg {
        bestNdcg := ndcg;
        bestConfigId := Some(configId);
        bestVariantParams := variantParams;
        bestWeights := Some(ExtractWeights(variantParams));
        queryText := Some(query);
      }
    }
  }

  // ---------------------------------------------------------------------
  // extractNdcgValue
  // ---------------------------------------------------------------------

  /** The keys of a metric entry. */
  const MetricKey: string := "metric"
  const ValueKey: string := "value"

  /** `Integer.toString` for a possibly negative `int`. */
  function IntToString(k: int): (r: string)
    ensures |r| >= 1
  {
    if k < 0 then "-" + NatToString(-k) else NatToString(k)
  }

  /** The metric `extractNdcgValue` looks for: "NDCG@" followed by `k`. */
  function NdcgMetricName(k: int): string
  {
    "NDCG@" + IntToString(k)
  }

  /** The metric name of an entry, or a `ClassCastException` when it is neither null nor a string. */
  function MetricName(metric: map<string, Json>): Result<Option<string>>
  {
    if MetricKey !in metric || metric[MetricKey].JNull? then Ok(None)
    else if metric[MetricKey].JStr? then Ok(Some(metric[MetricKey].s))
    else Err(Throwable(ClassCastException, "metric name is not a String", None))
  }

  /** An entry with the name `name` whose value is a number. */
  predicate IsNumericMetric(metric: map<string, Json>, name: string)
  {
    MetricName(metric) == Ok(Some(name)) && ValueKey in metric && metric[ValueKey].JNum?
  }

  /** No entry before `i` is a numeric `name` entry or has a name that is not a string. */
  predicate NoneBefore(metrics: seq<map<string, Json>>, name: string, i: int)
  {
    forall j :: 0 <= j < i && j < |metrics| ==> MetricName(metrics[j]).Ok? && !IsNumericMetric(metrics[j], name)
  }

  /**
   * The value `extractNdcgValue` returns: the first entry named `name`
   * whose value is a number, or -1.0 if there is none. An entry named
   * `name` whose value is not a number is skipped; a name that is not a
   * string throws.
   */
  function NdcgValue(metrics: seq<map<string, Json>>, name: string): (r: Result<real>)
    ensures NoneBefore(metrics, name, |metrics|) ==> r == Ok(-1.0)
    ensures forall i :: 0 <= i < |metrics| && IsNumericMetric(metrics[i], name) && NoneBefore(metrics, name, i) ==>
      r == Ok(metrics[i][ValueKey].n)
    ensures r.Err? ==> exists i :: 0 <= i < |metrics| && MetricName(metrics[i]).Err?
  {
    if metrics == [] then Ok(-1.0)
    else
      var m := metrics[0];
      var rest := NdcgValue(metrics[1..], name);
      assert forall i :: 1 <= i < |metrics| ==> metrics[i] == metrics[1..][i - 1];
      match MetricName(m)
      case Err(e) => Err(e)
      case Ok(n) =>
        if n == Some(name) && ValueKey in m && m[ValueKey].JNum? then Ok(m[ValueKey].n)
        else rest
  }

  /** `extractNdcgValue`: scans the metrics in order. */
  method ExtractNdcgValue(metrics: seq<map<string, Json>>, k: int) returns (r: Result<real>)
    ensures r == NdcgValue(metrics, NdcgMetricName(k))
  {
    var name := NdcgMetricName(k);
    var i := 0;
    while i < |metrics|
      invariant 0 <= i <= |metrics|
      invariant NdcgValue(metrics[i..], name) == NdcgValue(metrics, name)
    {
      assert metrics[i..][1..] == metrics[i + 1..];
      var metricName := MetricName(metrics[i]);
      if metricName.Err? {
        return Err(metricName.error);
      }
      if metricName.value == Some(name) {
        var value := if ValueKey in metrics[i] then metrics[i][ValueKey] else JNull;
        if value.JNum? {
          return Ok(value.n);
        }
      }
      i := i + 1;
    }
    return Ok(-1.0);
  }

  // ---------------------------------------------------------------------
  // The processor
  // ---------------------------------------------------------------------

  /** What the search returned: the total hit count and the ids of the hits. */
  datatype SearchResponse = SearchResponse(totalHits: nat, hitIds: seq<string>)

  /**
   * A DAO write the processor starts. The write returns at once; its
   * outcome arrives later, in a callback event of its own.
   */
  datatype DaoWrite =
    | PutEvaluationResult(result: EvaluationResult)
    | PutExperimentVariant(variant: ExperimentVariant)

  /** The key of the per-query tracker and logging marker. */
  function QueryKey(experimentId: string, queryText: string): string
  {
    experimentId + "_" + queryText
  }

  /**
   * A response with hits whose metrics cannot be computed or whose NDCG
   * cannot be read: the exception is caught and a failure counted at once.
   */
  predicate FailsAtOnce(response: SearchResponse, metrics: Result<seq<map<string, Json>>>, size: int)
  {
    response.totalHits != 0 && (metrics.Err? || NdcgValue(metrics.value, NdcgMetricName(size)).Err?)
  }

  /**
   * The write a response starts while its batch has not failed: the
   * no-hits variant for a response without hits, nothing when it fails at
   * once, and otherwise the evaluation result of its hits.
   */
  function ResponseWrite(response: SearchResponse, metrics: Result<seq<map<string, Json>>>, size: int,
                         variant: ExperimentVariant, experimentId: string, searchConfigId: string, queryText: string,
                         judgmentIds: seq<string>, evaluationId: string, timestamp: string): (w: Option<DaoWrite>)
    ensures response.totalHits == 0 ==>
      w.Some? && w.value.PutExperimentVariant? && w.value.variant == NoHitsVariant(variant, experimentId, evaluationId, timestamp)
    ensures w.None? <==> FailsAtOnce(response, metrics, size)
    ensures response.totalHits != 0 && w.Some? ==>
      && metrics.Ok? && w.value.PutEvaluationResult?
      && w.value.result.id == evaluationId && w.value.result.searchConfigurationId == searchConfigId
      && w.value.result.searchText == queryText && w.value.result.documentIds == Some(response.hitIds)
      && w.value.result.metrics == metrics.value
  {
    if response.totalHits == 0 then Some(PutExperimentVariant(NoHitsVariant(variant, experimentId, evaluationId, timestamp)))
    else if FailsAtOnce(response, metrics, size) then None
    else Some(PutEvaluationResult(EvaluationResult(evaluationId, timestamp, searchConfigId, queryText, Some(judgmentIds),
      Some(response.hitIds), metrics.value)))
  }

  /** What the callback of a write counts: the evaluation result write its success, a variant write one failure. */
  function CountedOnWrite(write: DaoWrite, writeSucceeded: bool): seq<bool>
  {
    match write
    case PutEvaluationResult(_) => [writeSucceeded]
    case PutExperimentVariant(_) => [false]
  }

  /**
   * Whether a response that arrives while the batch has not failed ends up
   * counted as a success: it must have hits, metrics, a readable NDCG and
   * a persisted evaluation result.
   */
  predicate CountsAsSuccess(response: SearchResponse, metrics: Result<seq<map<string, Json>>>, size: int,
                            evaluationWriteSucceeded: bool)
  {
    && response.totalHits != 0
    && metrics.Ok?
    && NdcgValue(metrics.value, NdcgMetricName(size)).Ok?
    && evaluationWriteSucceeded
  }

  /**
   * Every response of a live batch is counted exactly once: either at once,
   * or by the callback of the one write it starts; and the count is a
   * success iff `CountsAsSuccess`.
   */
  lemma ResponseCountedOnce(response: SearchResponse, metrics: Result<seq<map<string, Json>>>, size: int,
                            variant: ExperimentVariant, experimentId: string, searchConfigId: string, queryText: string,
                            judgmentIds: seq<string>, evaluationId: string, timestamp: string, writeSucceeded: bool)
    ensures var w := ResponseWrite(response, metrics, size, variant, experimentId, searchConfigId, queryText,
                                   judgmentIds, evaluationId, timestamp);
      (if FailsAtOnce(response, metrics, size) then [false] else [])
        + (if w.Some? then CountedOnWrite(w.value, writeSucceeded) else [])
      == [CountsAsSuccess(response, metrics, size, writeSucceeded)]
  {
  }

  /** The best NDCG to record for a variant, if any: hybrid variants only, scores of at least 0. */
  function TrackedScore(variantType: ExperimentType, response: SearchResponse, metrics: Result<seq<map<string, Json>>>,
                        size: int): Option<real>
  {
    if response.totalHits != 0 && metrics.Ok? && variantType == HybridOptimizer then
      var v := NdcgValue(metrics.value, NdcgMetricName(size));
      if v.Ok? && v.value >= 0.0 then Some(v.value) else None
    else None
  }

  /** The keys of `keys` that start with `prefix`. */
  function WithPrefix(keys: set<string>, prefix: string): set<string>
  {
    set k | k in keys && StartsWith(k, prefix)
  }

  class SearchResponseProcessor {
    var bestConfigurationsPerQuery: map<string, BestConfigurationTracker>
    var loggedQueries: set<string>
    var experimentWeightStats: map<string, map<string, nat>>
    var loggedExperimentStats: set<string>

    /** The tracker objects, the footprint of `processSearchResponse`. */
    function Trackers(): set<BestConfigurationTracker>
      reads this
    {
      set k | k in bestConfigurationsPerQuery :: bestConfigurationsPerQuery[k]
    }

    constructor ()
      ensures bestConfigurationsPerQuery == map[] && loggedQueries == {}
      ensures experimentWeightStats == map[] && loggedExperimentStats == {}
    {
      bestConfigurationsPerQuery := map[];
      loggedQueries := {};
      experimentWeightStats := map[];
      loggedExperimentStats := {};
    }

    /**
     * `processSearchResponse`. Nothing happens once the batch has failed.
     * Otherwise a response that fails at once counts one failure; any
     * other response starts one write, whose callback counts it later. A
     * hybrid variant's NDCG goes to the tracker of its query.
     */
    method ProcessSearchResponse(
      response: SearchResponse, variant: ExperimentVariant, textualParameters: Option<string>,
      experimentId: string, searchConfigId: string, queryText: string, size: int, judgmentIds: seq<string>,
      evaluationId: string, timestamp: string, metrics: Result<seq<map<string, Json>>>, ctx: ExperimentTaskContext)
      returns (write: Option<DaoWrite>)
      requires ctx.Valid()
      modifies this, ctx, ctx.resultFuture, Trackers()
      ensures ctx.Valid()
      ensures old(ctx.hasFailure.value) ==>
        write.None? && unchanged(this) && unchanged(ctx) && unchanged(ctx.resultFuture)
      ensures !old(ctx.hasFailure.value) ==>
        && write == ResponseWrite(response, metrics, size, variant, experimentId, searchConfigId, queryText,
                                  judgmentIds, evaluationId, timestamp)
        && ctx.outcomes == old(ctx.outcomes) + (if FailsAtOnce(response, metrics, size) then [false] else [])
      ensures ctx.configToExperimentVariants == old(ctx.configToExperimentVariants)
      ensures ctx.scheduledWrites == old(ctx.scheduledWrites)
      ensures loggedQueries == old(loggedQueries) && loggedExperimentStats == old(loggedExperimentStats)
      ensures experimentWeightStats == old(experimentWeightStats)
      ensures bestConfigurationsPerQuery.Keys >= old(bestConfigurationsPerQuery.Keys)
      ensures forall k :: k in old(bestConfigurationsPerQuery) ==> bestConfigurationsPerQuery[k] == old(bestConfigurationsPerQuery[k])
      ensures !old(ctx.hasFailure.value) && TrackedScore(variant.variantType, response, metrics, size).Some? ==>
        var key := QueryKey(experimentId, queryText);
        && key in bestConfigurationsPerQuery
        && bestConfigurationsPerQuery[key].State() == TrackerUpdate(
             if key in old(bestConfigurationsPerQuery) then old(bestConfigurationsPerQuery[key].State()) else InitialTracker,
             Candidate(TrackedScore(variant.variantType, response, metrics, size).value, searchConfigId, textualParameters, queryText))
    {
      if ctx.hasFailure.value {
        return None;
      }
      if response.totalHits == 0 {
        // handleNoHits: the no-hits variant is written; its callback counts the variant.
        return Some(PutExperimentVariant(NoHitsVariant(variant, experimentId, evaluationId, timestamp)));
      }
      if metrics.Err? {
        HandleTaskFailure(ctx);
        return None;
      }
      var ndcg := ExtractNdcgValue(metrics.value, size);
      if ndcg.Err? {
        HandleTaskFailure(ctx);
        return None;
      }
      var ndcgValue := ndcg.value;
      if variant.variantType == HybridOptimizer && ndcgValue >= 0.0 {
        TrackScore(QueryKey(experimentId, queryText), ndcgValue, searchConfigId, textualParameters, queryText);
      }
      write := Some(PutEvaluationResult(EvaluationResult(evaluationId, timestamp, searchConfigId, queryText,
        Some(judgmentIds), Some(response.hitIds), metrics.value)));
    }

    /**
     * The tracker step of `processSearchResponse`: the query's tracker,
     * created on first use, is updated with the candidate. Every other
     * entry of the map keeps its tracker.
     */
    method TrackScore(queryKey: string, ndcg: real, configId: string, variantParams: Option<string>, queryText: string)
      modifies this, Trackers()
      ensures bestConfigurationsPerQuery.Keys == old(bestConfigurationsPerQuery.Keys) + {queryKey}
      ensures forall k :: k in old(bestConfigurationsPerQuery) ==> bestConfigurationsPerQuery[k] == old(bestConfigurationsPerQuery[k])
      ensures bestConfigurationsPerQuery[queryKey].State() == TrackerUpdate(
        if queryKey in old(bestConfigurationsPerQuery) then old(bestConfigurationsPerQuery[queryKey].State()) else InitialTracker,
        Candidate(ndcg, configId, variantParams, queryText))
      ensures loggedQueries == old(loggedQueries) && loggedExperimentStats == old(loggedExperimentStats)
      ensures experimentWeightStats == old(experimentWeightStats)
    {
      var tracker: BestConfigurationTracker;
      if queryKey in bestConfigurationsPerQuery {
        tracker := bestConfigurationsPerQuery[queryKey];
      } else {
        tracker := new BestConfigurationTracker();
        bestConfigurationsPerQuery := bestConfigurationsPerQuery[queryKey := tracker];
      }
      tracker.UpdateIfBetter(ndcg, configId, variantParams, queryText);
    }

    /**
     * The callback of the evaluation result write: on success the variant
     * is updated (`updateExperimentVariant`), on failure one failure is
     * counted. The batch's failure flag is not consulted.
     */
    method OnEvaluationResultWritten(writeSucceeded: bool, variant: ExperimentVariant, experimentId: string,
                                     evaluationId: string, timestamp: string, queryText: string, ctx: ExperimentTaskContext)
      requires ctx.Valid()
      modifies this, ctx, ctx.resultFuture
      ensures ctx.Valid()
      ensures ctx.outcomes == old(ctx.outcomes) + [writeSucceeded]
      ensures writeSucceeded ==>
        ctx.scheduledWrites == old(ctx.scheduledWrites)
          + [VariantWriteRequest(CompletedVariant(variant, experimentId, evaluationId, timestamp), evaluationId, true)]
      ensures !writeSucceeded ==> ctx.scheduledWrites == old(ctx.scheduledWrites)
      ensures ctx.configToExperimentVariants == old(ctx.configToExperimentVariants)
      ensures bestConfigurationsPerQuery == old(bestConfigurationsPerQuery)
      ensures loggedQueries >= old(loggedQueries) && loggedExperimentStats >= old(loggedExperimentStats)
    {
      if writeSucceeded {
        UpdateExperimentVariant(variant, experimentId, evaluationId, timestamp, queryText, ctx);
      } else {
        HandleTaskFailure(ctx);
      }
    }

    /**
     * `updateExperimentVariant`: starts the COMPLETED variant write, counts
     * the variant as a success at once, without waiting for that write,
     * and then checks whether to log the best configuration.
     */
    method UpdateExperimentVariant(variant: ExperimentVariant, experimentId: string, evaluationId: string,
                                   timestamp: string, queryText: string, ctx: ExperimentTaskContext)
      requires ctx.Valid()
      modifies this, ctx, ctx.resultFuture
      ensures ctx.Valid()
      ensures ctx.outcomes == old(ctx.outcomes) + [true]
      ensures ctx.scheduledWrites ==
        old(ctx.scheduledWrites) + [VariantWriteRequest(CompletedVariant(variant, experimentId, evaluationId, timestamp), evaluationId, true)]
      ensures ctx.configToExperimentVariants == old(ctx.configToExperimentVariants)
      ensures bestConfigurationsPerQuery == old(bestConfigurationsPerQuery)
      ensures loggedQueries >= old(loggedQueries) && loggedExperimentStats >= old(loggedExperimentStats)
    {
      var completedVariant := CompletedVariant(variant, experimentId, evaluationId, timestamp);
      ctx.ScheduleVariantWrite(completedVariant, evaluationId, true);
      ctx.CompleteVariantSuccess();
      var _ := CheckAndLogBestConfiguration(experimentId, ctx, queryText);
    }

    /**
     * The callback of the no-hits variant write (`handleNoHits`) and of the
     * ERROR variant write (`handleSearchFailure`): one failure is counted
     * whether the write succeeded or not.
     */
    method OnFailedVariantWritten(writeSucceeded: bool, ctx: ExperimentTaskContext)
      requires ctx.Valid()
      modifies ctx, ctx.resultFuture
      ensures ctx.Valid()
      ensures ctx.outcomes == old(ctx.outcomes) + [false]
      ensures ctx.configToExperimentVariants == old(ctx.configToExperimentVariants)
      ensures ctx.scheduledWrites == old(ctx.scheduledWrites)
    {
      if writeSucceeded {
        ctx.CompleteVariantFailure();
      } else {
        HandleTaskFailure(ctx);
      }
    }

    /**
     * `checkAndLogBestConfiguration`: once the context has seen at least
     * `total - 1` completions, marks the query logged the first time only,
     * adds the tracker's best weights to the histogram on that first time,
     * and checks the experiment's aggregated statistics. Returns whether
     * this call was the one that logged the query.
     */
    method CheckAndLogBestConfiguration(experimentId: string, ctx: ExperimentTaskContext, queryText: string)
      returns (loggedNow: bool)
      modifies this
      ensures bestConfigurationsPerQuery == old(bestConfigurationsPerQuery)
      ensures var key := QueryKey(experimentId, queryText);
        && loggedNow == (ctx.successfulVariants + ctx.failedVariants >= ctx.totalVariants - 1 && key !in old(loggedQueries))
        && loggedQueries == old(loggedQueries) + (if loggedNow then {key} else {})
      ensures !loggedNow ==> experimentWeightStats == old(experimentWeightStats)
      ensures loggedNow && QueryKey(experimentId, queryText) in bestConfigurationsPerQuery ==>
        experimentWeightStats == AddWeight(old(experimentWeightStats), experimentId, bestConfigurationsPerQuery[QueryKey(experimentId, queryText)].bestWeights)
      ensures loggedNow && QueryKey(experimentId, queryText) !in bestConfigurationsPerQuery ==>
        experimentWeightStats == old(experimentWeightStats)
      ensures loggedExperimentStats >= old(loggedExperimentStats)
      ensures ctx.successfulVariants + ctx.failedVariants >= ctx.totalVariants - 1 ==>
        loggedExperimentStats == old(loggedExperimentStats)
          + (if ReadyForStats(experimentId) && experimentId !in old(loggedExperimentStats) then {experimentId} else {})
      ensures ctx.successfulVariants + ctx.failedVariants < ctx.totalVariants - 1 ==> unchanged(this)
    {
      loggedNow := false;
      var queryKey := QueryKey(experimentId, queryText);
      var completedVariants := ctx.successfulVariants + ctx.failedVariants;
      if completedVariants >= ctx.totalVariants - 1 {
        if queryKey !in loggedQueries {
          loggedQueries := loggedQueries + {queryKey};
          loggedNow := true;
          if queryKey in bestConfigurationsPerQuery {
            var tracker := bestConfigurationsPerQuery[queryKey];
            TrackWeightStatistics(experimentId, tracker.bestWeights);
          }
        }
        var _ := CheckAndLogAggregatedStats(experimentId);
      }
    }

    /** `trackWeightStatistics`: counts real weights once more; null and "unknown" are ignored. */
    method TrackWeightStatistics(experimentId: string, weights: Option<string>)
      modifies this
      ensures experimentWeightStats == AddWeight(old(experimentWeightStats), experimentId, weights)
      ensures bestConfigurationsPerQuery == old(bestConfigurationsPerQuery) && loggedQueries == old(loggedQueries)
      ensures loggedExperimentStats == old(loggedExperimentStats)
    {
      if weights.Some? && weights.value != Unknown {
        var stats := if experimentId in experimentWeightStats then experimentWeightStats[experimentId] else map[];
        var count := if weights.value in stats then stats[weights.value] + 1 else 1;
        experimentWeightStats := experimentWeightStats[experimentId := stats[weights.value := count]];
      }
    }

    /**
     * `checkAndLogAggregatedStats`: emits the statistics of an experiment
     * the first time the tracked and logged query keys starting with its
     * id are equally many and at least one. Returns whether it emitted.
     */
    method CheckAndLogAggregatedStats(experimentId: string) returns (emitted: bool)
      modifies this
      ensures emitted == (ReadyForStats(experimentId) && experimentId !in old(loggedExperimentStats))
      ensures loggedExperimentStats == old(loggedExperimentStats) + (if emitted then {experimentId} else {})
      ensures bestConfigurationsPerQuery == old(bestConfigurationsPerQuery) && loggedQueries == old(loggedQueries)
      ensures experimentWeightStats == old(experimentWeightStats)
    {
      var queriesForExperiment := |WithPrefix(bestConfigurationsPerQuery.Keys, experimentId)|;
      var loggedQueriesForExperiment := |WithPrefix(loggedQueries, experimentId)|;
      emitted := false;
      if queriesForExperiment > 0 && queriesForExperiment == loggedQueriesForExperiment {
        if experimentId !in loggedExperimentStats {
          loggedExperimentStats := loggedExperimentStats + {experimentId};
          emitted := true;
        }
      }
    }

    /** The condition for the aggregated statistics of `experimentId`. */
    predicate ReadyForStats(experimentId: string)
      reads this
    {
      var tracked := |WithPrefix(bestConfigurationsPerQuery.Keys, experimentId)|;
      tracked > 0 && tracked == |WithPrefix(loggedQueries, experimentId)|
    }

    /** `handleTaskFailure`: counts one failure. */
    method HandleTaskFailure(ctx: ExperimentTaskContext)
      requires ctx.Valid()
      modifies ctx, ctx.resultFuture
      ensures ctx.Valid()
      ensures ctx.outcomes == old(ctx.outcomes) + [false]
      ensures ctx.configToExperimentVariants == old(ctx.configToExperimentVariants)
      ensures ctx.scheduledWrites == old(ctx.scheduledWrites)
    {
      ctx.CompleteVariantFailure();
    }

    /**
     * `handleSearchFailure`: starts the write of the variant as ERROR and
     * returns; the callback, `OnFailedVariantWritten`, counts the failure.
     */
    function HandleSearchFailure(e: Throwable, variant: ExperimentVariant, experimentId: string, evaluationId: string,
                                 timestamp: string): (w: DaoWrite)
      ensures w.PutExperimentVariant? && w.variant.id == variant.id && w.variant.status == Error
      ensures w.variant.experimentId == experimentId && w.variant.parameters == variant.parameters
      ensures w.variant.results == map["evaluationResultId" := JStr(evaluationId), "error" := JStr(e.message)]
    {
      PutExperimentVariant(ErrorVariant(variant, experimentId, evaluationId, timestamp, e))
    }
  }

  /** `weightStats.merge(weights, 1, Integer::sum)` under the experiment, for real weights only. */
  function AddWeight(stats: map<string, map<string, nat>>, experimentId: string, weights: Option<string>): (r: map<string, map<string, nat>>)
    ensures weights.None? || weights.value == Unknown ==> r == stats
    ensures weights.Some? && weights.value != Unknown ==>
      && experimentId in r
      && weights.value in r[experimentId]
      && r[experimentId][weights.value] == 1 + (if experimentId in stats && weights.value in stats[experimentId] then stats[experimentId][weights.value] else 0)
      && (forall e :: e in stats && e != experimentId ==> e in r && r[e] == stats[e])
      && (forall w :: experimentId in stats && w in stats[experimentId] && w != weights.value ==> w in r[experimentId] && r[experimentId][w] == stats[experimentId][w])
  {
    if weights.None? || weights.value == Unknown then stats
    else
      var inner := if experimentId in stats then stats[experimentId] else map[];
      var count := if weights.value in inner then inner[weights.value] + 1 else 1;
      stats[experimentId := inner[weights.value := count]]
  }

  /** The variant `updateExperimentVariant` writes. */
  function CompletedVariant(v: ExperimentVariant, experimentId: string, evaluationId: string, timestamp: string): (r: ExperimentVariant)
    ensures r.id == v.id && r.status == Completed && r.experimentId == experimentId
    ensures r.results == map["evaluationResultId" := JStr(evaluationId)]
  {
    ExperimentVariant(v.id, timestamp, v.variantType, Completed, experimentId, v.parameters,
      map["evaluationResultId" := JStr(evaluationId)])
  }

  /** The variant `handleNoHits` writes: COMPLETED, although it is counted as a failure. */
  function NoHitsVariant(v: ExperimentVariant, experimentId: string, evaluationId: string, timestamp: string): (r: ExperimentVariant)
    ensures r.id == v.id && r.status == Completed
    ensures r.results == map["evaluationResultId" := JStr(evaluationId), "details" := JStr("no search hits found")]
  {
    ExperimentVariant(v.id, timestamp, v.variantType, Completed, experimentId, v.parameters,
      map["evaluationResultId" := JStr(evaluationId), "details" := JStr("no search hits found")])
  }

  /** The variant `handleSearchFailure` writes. */
  function ErrorVariant(v: ExperimentVariant, experimentId: string, evaluationId: string, timestamp: string, e: Throwable): (r: ExperimentVariant)
    ensures r.id == v.id && r.status == Error
    ensures r.results == map["evaluationResultId" := JStr(evaluationId), "error" := JStr(e.message)]
  {
    ExperimentVariant(v.id, timestamp, v.variantType, Error, experimentId, v.parameters,
      map["evaluationResultId" := JStr(evaluationId), "error" := JStr(e.message)])
  }
}
