/**
 * `MetricsHelper`: the non-hybrid experiment paths. Pointwise evaluation
 * first collects the judgment ratings for the query text, counting
 * judgment callbacks down to zero, and then runs every search
 * configuration; pairwise comparison runs every configuration, keeps each
 * one's distinct hit ids, and compares the first two once all have
 * answered. Only the first pairwise failure reaches the listener.
 *
 * Callbacks are event methods; any order of callbacks is a sequence of
 * calls.
 */
module MetricsHelper {
  import opened Common
  import opened Concurrent
  import opened Model
  import opened JudgmentRatings

  const MissingParametersMessage: string := "Missing required parameters"
  const NoValidJudgmentsMessage: string := "Failed to fetch any valid judgments"
  const EmptyHybridVariantsMessage: string := "experiment variant for hybrid search cannot be empty"

  /** An entry of `indexAndQueries`: a configuration id, its index, query template and search pipeline. */
  datatype ConfigQuery = ConfigQuery(searchConfigId: string, index: string, query: string, searchPipeline: Option<string>)

  // ---------------------------------------------------------------------
  // processEvaluationMetrics: guard and judgment countdown
  // ---------------------------------------------------------------------

  /** The guard of `processEvaluationMetrics`: both lists must be non-empty. */
  function CheckParameters(indexAndQueries: seq<ConfigQuery>, judgmentIds: seq<string>): (error: Option<Throwable>)
    ensures error.Some? <==> indexAndQueries == [] || judgmentIds == []
    ensures error.Some? ==> error.value == Throwable(IllegalArgumentException, MissingParametersMessage, None)
  {
    if indexAndQueries == [] || judgmentIds == [] then Some(Throwable(IllegalArgumentException, MissingParametersMessage, None))
    else None
  }

  /**
   * The pairs the pointwise path copies from one judgment. Unlike the
   * hybrid optimizer it does not check the matching entry's list for null:
   * a null list throws a `NullPointerException`.
   */
  function RatingsToCopy(queryText: string, response: JudgmentResponse): (r: Result<seq<DocRating>>)
  {
    if response.totalHits == 0 then Ok([])
    else
      match FirstMatch(response.judgmentRatings, queryText)
      case None => Ok([])
      case Some(i) =>
        if response.judgmentRatings[i].ratings.None? then Err(Throwable(NullPointerException, "", None))
        else Ok(response.judgmentRatings[i].ratings.value)
  }

  /**
   * Both paths copy the same pairs; the pointwise path fails exactly where
   * the hybrid optimizer skips a null list.
   */
  lemma RatingsAgreeWithHybridPath(queryText: string, response: JudgmentResponse)
    ensures RatingsToCopy(queryText, response).Ok? ==> RatingsToCopy(queryText, response).value == Contributed(queryText, response)
    ensures RatingsToCopy(queryText, response).Err? <==>
      && response.totalHits > 0
      && FirstMatch(response.judgmentRatings, queryText).Some?
      && response.judgmentRatings[FirstMatch(response.judgmentRatings, queryText).value].ratings.None?
  {
  }

  /**
   * The judgment callbacks of one `processEvaluationMetrics` call. Every
   * callback that gets past its copy bumps `completedJudgments`; the one
   * that brings it to the judgment count either starts the search
   * configurations with the ratings collected so far or, when it is a
   * lookup failure and nothing was collected, fails.
   */
  class JudgmentCountdown {
    const queryText: string
    const judgmentCount: nat
    const listener: Listener<Json>
    var docIdToRatings: map<string, string>
    var completedJudgments: int
    /** The ratings each start of `processSearchConfigurations` received. */
    var started: seq<map<string, string>>
    /** Number of "no valid judgments" failures sent. */
    var abandoned: nat

    /** The countdown has finished (started or abandoned) exactly once iff it reached the judgment count. */
    ghost predicate Valid()
      reads this
    {
      && judgmentCount > 0
      && completedJudgments >= 0
      && |started| + abandoned == (if completedJudgments >= judgmentCount then 1 else 0)
    }

    /** The state after the guard passed, for a non-empty judgment list. */
    constructor (queryText: string, judgmentIds: seq<string>, listener: Listener<Json>)
      requires judgmentIds != []
      ensures Valid()
      ensures this.queryText == queryText && judgmentCount == |judgmentIds| && this.listener == listener
      ensures docIdToRatings == map[] && completedJudgments == 0 && started == [] && abandoned == 0
    {
      this.queryText := queryText;
      judgmentCount := |judgmentIds|;
      this.listener := listener;
      docIdToRatings := map[];
      completedJudgments := 0;
      started := [];
      abandoned := 0;
    }

    /** The ratings loop: copies each pair into the map. */
    method CopyRatings(ratings: seq<DocRating>)
      modifies this
      ensures docIdToRatings == PutAll(old(docIdToRatings), ratings)
      ensures completedJudgments == old(completedJudgments) && started == old(started) && abandoned == old(abandoned)
    {
      var k := 0;
      while k < |ratings|
        invariant 0 <= k <= |ratings|
        invariant docIdToRatings == PutAll(old(docIdToRatings), ratings[..k])
        invariant completedJudgments == old(completedJudgments) && started == old(started) && abandoned == old(abandoned)
      {
        assert ratings[..k + 1][..k] == ratings[..k];
        docIdToRatings := docIdToRatings[ratings[k].docId := ratings[k].rating];
        k := k + 1;
      }
      assert ratings[..|ratings|] == ratings;
    }

    /**
     * A judgment lookup answered. A null ratings list fails the listener
     * and does not count the callback; otherwise the pairs are copied and
     * the last callback starts the configurations, even with no ratings.
     */
    method OnJudgmentResponse(response: JudgmentResponse)
      requires Valid()
      modifies this, listener
      ensures Valid()
      ensures RatingsToCopy(queryText, response).Err? ==>
        && docIdToRatings == old(docIdToRatings) && completedJudgments == old(completedJudgments)
        && started == old(started) && abandoned == old(abandoned)
        && listener.events == old(listener.events) + [FailedWith(RatingsToCopy(queryText, response).error)]
      ensures RatingsToCopy(queryText, response).Ok? ==>
        && docIdToRatings == PutAll(old(docIdToRatings), RatingsToCopy(queryText, response).value)
        && completedJudgments == old(completedJudgments) + 1
        && started == old(started) + (if completedJudgments == judgmentCount then [docIdToRatings] else [])
        && abandoned == old(abandoned) && listener.events == old(listener.events)
    {
      var toCopy := RatingsToCopy(queryText, response);
      if toCopy.Err? {
        listener.OnFailure(toCopy.error);
        return;
      }
      CopyRatings(toCopy.value);
      completedJudgments := completedJudgments + 1;
      if completedJudgments == judgmentCount {
        started := started + [docIdToRatings];
      }
    }

    /**
     * A judgment lookup failed. The callback counts; if it is the last one,
     * the configurations start with what was collected, or the listener
     * fails when nothing was.
     */
    method OnJudgmentFailure(e: Throwable)
      requires Valid()
      modifies this, listener
      ensures Valid()
      ensures docIdToRatings == old(docIdToRatings) && completedJudgments == old(completedJudgments) + 1
      ensures completedJudgments != judgmentCount ==>
        started == old(started) && abandoned == old(abandoned) && listener.events == old(listener.events)
      ensures completedJudgments == judgmentCount && docIdToRatings == map[] ==>
        && started == old(started) && abandoned == old(abandoned) + 1
        && listener.events == old(listener.events) + [FailedWith(Throwable(IllegalStateException, NoValidJudgmentsMessage, None))]
      ensures completedJudgments == judgmentCount && docIdToRatings != map[] ==>
        started == old(started) + [docIdToRatings] && abandoned == old(abandoned) && listener.events == old(listener.events)
    {
      completedJudgments := completedJudgments + 1;
      if completedJudgments == judgmentCount {
        if docIdToRatings == map[] {
          listener.OnFailure(Throwable(IllegalStateException, NoValidJudgmentsMessage, None));
          abandoned := abandoned + 1;
        } else {
          started := started + [docIdToRatings];
        }
      }
    }
  }

  // ---------------------------------------------------------------------
  // getNumberOfExperimentRuns and the searches it counts
  // ---------------------------------------------------------------------

  /** `getNumberOfExperimentRuns`: the initial value of `pendingConfigurations`. */
  function NumberOfExperimentRuns(configCount: nat, variants: Option<seq<ExperimentVariant>>): (n: nat)
  {
    if variants.Some? then configCount * (if |variants.value| == 0 then 1 else |variants.value|) else configCount
  }

  /** `processSearchConfigurations` takes the hybrid path iff the variant list is non-null and non-empty. */
  predicate UsesHybridPath(variants: Option<seq<ExperimentVariant>>)
  {
    variants.Some? && variants.value != []
  }

  /**
   * The searches `processSearchConfigurations` issues, configuration by
   * configuration: one per variant on the hybrid path, a single one
   * otherwise.
   */
  function PlannedSearches(configs: seq<ConfigQuery>, variants: Option<seq<ExperimentVariant>>)
    : seq<(string, Option<ExperimentVariant>)>
  {
    if configs == [] then []
    else
      var id := configs[0].searchConfigId;
      var mine := if UsesHybridPath(variants)
        then seq(|variants.value|, j requires 0 <= j < |variants.value| => (id, Some(variants.value[j])))
        else [(id, None)];
      mine + PlannedSearches(configs[1..], variants)
  }

  /**
   * The countdown starts at exactly the number of searches issued, so it
   * reaches zero exactly when each search has reported once.
   */
  lemma {:induction false} RunsCountPlannedSearches(configs: seq<ConfigQuery>, variants: Option<seq<ExperimentVariant>>)
    ensures |PlannedSearches(configs, variants)| == NumberOfExperimentRuns(|configs|, variants)
  {
    if configs != [] {
      RunsCountPlannedSearches(configs[1..], variants);
      var per := if UsesHybridPath(variants) then |variants.value| else 1;
      assert NumberOfExperimentRuns(|configs|, variants) == per + NumberOfExperimentRuns(|configs| - 1, variants) by {
        if variants.Some? {
          var factor := if |variants.value| == 0 then 1 else |variants.value|;
          assert |configs| * factor == factor + (|configs| - 1) * factor;
        }
      }
    }
  }

  /** The hybrid path's guard: a null or empty variant list is refused. */
  function CheckHybridVariants(variants: Option<seq<ExperimentVariant>>): (error: Option<Throwable>)
    ensures error.Some? <==> !UsesHybridPath(variants)
    ensures error.Some? ==> error.value == Throwable(IllegalArgumentException, EmptyHybridVariantsMessage, None)
  {
    if variants.None? || variants.value == [] then Some(Throwable(IllegalArgumentException, EmptyHybridVariantsMessage, None))
    else None
  }

  // ---------------------------------------------------------------------
  // Pairwise comparison
  // ---------------------------------------------------------------------

  /** The index of the first occurrence of `x` in `ids`. */
  function FirstIndex(ids: seq<string>, x: string): (i: nat)
    requires x in ids
    ensures i < |ids| && ids[i] == x && x !in ids[..i]
  {
    if ids[0] == x then 0 else 1 + FirstIndex(ids[1..], x)
  }

  /** `ids.stream().distinct()`: every id once, where it first occurs. */
  function Distinct(ids: seq<string>): (d: seq<string>)
    ensures forall x :: x in d <==> x in ids
    ensures forall i, j :: 0 <= i < j < |d| ==> d[i] != d[j]
  {
    if ids == [] then []
    else
      var front := Distinct(ids[..|ids| - 1]);
      var last := ids[|ids| - 1];
      if last in front then front else front + [last]
  }

  lemma FirstIndexOfPrefix(ids: seq<string>, n: nat, x: string)
    requires n <= |ids| && x in ids[..n]
    ensures x in ids && FirstIndex(ids, x) == FirstIndex(ids[..n], x)
  {
    var i := FirstIndex(ids[..n], x);
    assert ids[..n][..i] == ids[..i];
    FirstIndexUnique(ids, x, i);
  }

  lemma {:induction false} FirstIndexUnique(ids: seq<string>, x: string, i: nat)
    requires i < |ids| && ids[i] == x && x !in ids[..i]
    ensures FirstIndex(ids, x) == i
  {
    if i > 0 {
      assert ids[0] != x by { assert ids[0] == ids[..i][0]; }
      assert ids[1..][..i - 1] == ids[..i][1..];
      FirstIndexUnique(ids[1..], x, i - 1);
    }
  }

  /** The distinct ids keep the order of their first occurrences in the hits. */
  lemma {:induction false} DistinctKeepsFirstOccurrenceOrder(ids: seq<string>)
    ensures forall i, j :: 0 <= i < j < |Distinct(ids)| ==>
      FirstIndex(ids, Distinct(ids)[i]) < FirstIndex(ids, Distinct(ids)[j])
  {
    if ids != [] {
      var n := |ids| - 1;
      var front := ids[..n];
      var last := ids[n];
      var d := Distinct(ids);
      DistinctKeepsFirstOccurrenceOrder(front);
      forall i, j | 0 <= i < j < |d|
        ensures FirstIndex(ids, d[i]) < FirstIndex(ids, d[j])
      {
        FirstIndexOfPrefix(ids, n, d[i]);
        if j < |Distinct(front)| {
          FirstIndexOfPrefix(ids, n, d[j]);
        } else {
          // d[j] is `last`, which does not occur earlier.
          assert d[j] == last && last !in front;
          assert front == ids[..n];
          FirstIndexUnique(ids, last, n);
        }
      }
    }
  }

  /** One entry of the pairwise `snapshots`: a configuration and its doc ids. */
  datatype Snapshot = Snapshot(searchConfigurationId: string, docIds: seq<string>)

  /** The input of the pairwise calculation: the doc ids of the first two configurations, if there are two. */
  datatype PairwiseInput = NoPair | Pair(a: Option<seq<string>>, b: Option<seq<string>>)

  /** The pairwise results: the snapshots (absent when there is no configuration) and the comparison. */
  datatype PairwiseResults = PairwiseResults(snapshots: Option<seq<Snapshot>>, comparison: Json)

  /** `order` lists the keys of `m` once each, in the map's iteration order. */
  predicate IterationOrder<V>(m: map<string, V>, order: seq<string>)
  {
    && (forall i :: 0 <= i < |order| ==> order[i] in m)
    && (forall k :: k in m ==> k in order)
    && (forall i, j :: 0 <= i < j < |order| ==> order[i] != order[j])
  }

  function Snapshots(docIds: map<string, Option<seq<string>>>, order: seq<string>): (s: seq<Snapshot>)
    requires forall i :: 0 <= i < |order| ==> order[i] in docIds
    ensures |s| == |order|
    ensures forall i :: 0 <= i < |order| ==>
      s[i] == Snapshot(order[i], if docIds[order[i]].Some? then docIds[order[i]].value else [])
  {
    seq(|order|, i requires 0 <= i < |order| =>
      Snapshot(order[i], if docIds[order[i]].Some? then docIds[order[i]].value else []))
  }

  /** The first two configurations' lists in iteration order, as they are, if there are two. */
  function PairwiseInputOf(docIds: map<string, Option<seq<string>>>, order: seq<string>): PairwiseInput
    requires IterationOrder(docIds, order)
  {
    if |order| >= 2 then Pair(docIds[order[0]], docIds[order[1]]) else NoPair
  }

  /**
   * `createPairwiseResults`. With no configuration the comparison is an
   * empty object and there are no snapshots. Otherwise there is a snapshot
   * per configuration in iteration order (a null list reads as empty), and
   * the calculation gets the first two configurations' lists, as they are,
   * when there are at least two. A failed calculation fails the listener.
   */
  function CreatePairwiseResults(docIds: map<string, Option<seq<string>>>, order: seq<string>,
                                 calculate: PairwiseInput -> Result<Json>): (r: Result<PairwiseResults>)
    requires IterationOrder(docIds, order)
  {
    if docIds == map[] then Ok(PairwiseResults(None, JObject(map[])))
    else
      match calculate(PairwiseInputOf(docIds, order))
      case Err(e) => Err(e)
      case Ok(comparison) => Ok(PairwiseResults(Some(Snapshots(docIds, order)), comparison))
  }

  /**
   * Every configuration has exactly one snapshot, no snapshot names any
   * other, and a pair is compared iff there are at least two configurations.
   */
  lemma PairwiseResultsShape(docIds: map<string, Option<seq<string>>>, order: seq<string>,
                             calculate: PairwiseInput -> Result<Json>, configId: string)
    requires IterationOrder(docIds, order)
    requires CreatePairwiseResults(docIds, order, calculate).Ok?
    ensures var r := CreatePairwiseResults(docIds, order, calculate).value;
      r.snapshots.Some? <==> docIds != map[]
    ensures var r := CreatePairwiseResults(docIds, order, calculate).value;
      r.snapshots.Some? ==>
        (configId in docIds <==> exists i :: 0 <= i < |r.snapshots.value| && r.snapshots.value[i].searchConfigurationId == configId)
    ensures var r := CreatePairwiseResults(docIds, order, calculate).value;
      r.snapshots.Some? ==> forall i, j :: 0 <= i < j < |r.snapshots.value| ==>
        r.snapshots.value[i].searchConfigurationId != r.snapshots.value[j].searchConfigurationId
    ensures PairwiseInputOf(docIds, order).Pair? <==> |docIds| >= 2
    ensures PairwiseInputOf(docIds, order).Pair? ==>
      PairwiseInputOf(docIds, order) == Pair(docIds[order[0]], docIds[order[1]])
    ensures docIds != map[] ==>
      && calculate(PairwiseInputOf(docIds, order)).Ok?
      && CreatePairwiseResults(docIds, order, calculate).value.comparison == calculate(PairwiseInputOf(docIds, order)).value
  {
    if docIds != map[] {
      var r := CreatePairwiseResults(docIds, order, calculate).value;
      if configId in docIds {
        var i :| 0 <= i < |order| && order[i] == configId;
        assert r.snapshots.value[i].searchConfigurationId == configId;
      }
    }
    OrderCoversMap(docIds, order);
  }

  /** An iteration order is as long as the map is large. */
  lemma OrderCoversMap<V>(m: map<string, V>, order: seq<string>)
    requires IterationOrder(m, order)
    ensures |order| == |m|
  {
    var keys := set i | 0 <= i < |order| :: order[i];
    assert keys == m.Keys;
    DistinctSize(order);
  }

  lemma {:induction false} DistinctSize(order: seq<string>)
    requires forall i, j :: 0 <= i < j < |order| ==> order[i] != order[j]
    ensures |set i | 0 <= i < |order| :: order[i]| == |order|
  {
    if order != [] {
      var front := order[..|order| - 1];
      DistinctSize(front);
      var s := set i | 0 <= i < |order| :: order[i];
      var t := set i | 0 <= i < |front| :: front[i];
      assert s == t + {order[|order| - 1]};
      assert order[|order| - 1] !in t;
    }
  }

  /** The doc-id lists of the configurations that answered, as nullable values. */
  function Nullable(m: map<string, seq<string>>): (r: map<string, Option<seq<string>>>)
    ensures r.Keys == m.Keys
    ensures forall k :: k in m ==> r[k] == Some(m[k])
  {
    map k | k in m :: Some(m[k])
  }

  /**
   * The pairwise search callbacks of one `processPairwiseMetrics` call. A
   * response after the failure flag is set is ignored; otherwise the
   * configuration's distinct doc ids are stored and the last response
   * builds the results. A failure reaches the listener only if it wins the
   * flag.
   */
  class PairwiseCollection {
    const hasFailure: AtomicFlag
    const listener: Listener<PairwiseResults>
    var searchConfigToDocIds: map<string, seq<string>>
    var pendingSearches: int

    constructor (configs: seq<ConfigQuery>, hasFailure: AtomicFlag, listener: Listener<PairwiseResults>)
      ensures this.hasFailure == hasFailure && this.listener == listener
      ensures searchConfigToDocIds == map[] && pendingSearches == |configs|
    {
      this.hasFailure := hasFailure;
      this.listener := listener;
      searchConfigToDocIds := map[];
      pendingSearches := |configs|;
    }

    /**
     * `order` is the iteration order of the map once this response is
     * stored, and `calculate` the pairwise calculation.
     */
    method OnSearchResponse(searchConfigId: string, hitIds: seq<string>, order: seq<string>,
                            calculate: PairwiseInput -> Result<Json>)
      requires IterationOrder(searchConfigToDocIds[searchConfigId := Distinct(hitIds)], order)
      modifies this, listener
      ensures old(hasFailure.value) ==>
        searchConfigToDocIds == old(searchConfigToDocIds) && pendingSearches == old(pendingSearches)
        && listener.events == old(listener.events)
      ensures !old(hasFailure.value) ==>
        searchConfigToDocIds == old(searchConfigToDocIds)[searchConfigId := Distinct(hitIds)]
        && pendingSearches == old(pendingSearches) - 1
      ensures !old(hasFailure.value) && pendingSearches != 0 ==> listener.events == old(listener.events)
      ensures !old(hasFailure.value) && pendingSearches == 0 ==>
        var r := CreatePairwiseResults(Nullable(searchConfigToDocIds), order, calculate);
        listener.events == old(listener.events) + [if r.Ok? then Responded(r.value) else FailedWith(r.error)]
    {
      if hasFailure.value {
        return;
      }
      searchConfigToDocIds := searchConfigToDocIds[searchConfigId := Distinct(hitIds)];
      pendingSearches := pendingSearches - 1;
      if pendingSearches == 0 {
        var r := CreatePairwiseResults(Nullable(searchConfigToDocIds), order, calculate);
        if r.Ok? {
          listener.OnResponse(r.value);
        } else {
          listener.OnFailure(r.error);
        }
      }
    }

    /** `handleFailure`: only the caller that sets the flag tells the listener. */
    method OnSearchFailure(e: Throwable)
      modifies hasFailure, listener
      ensures hasFailure.value
      ensures listener.events == old(listener.events) + (if old(hasFailure.value) then [] else [FailedWith(e)])
    {
      var won := hasFailure.CompareAndSet(false, true);
      if won {
        listener.OnFailure(e);
      }
    }
  }

  /**
   * Two failures in a row reach the listener once: the second caller loses
   * the flag.
   */
  method TwoFailuresReportOnce(collection: PairwiseCollection, e1: Throwable, e2: Throwable)
    requires !collection.hasFailure.value
    modifies collection.hasFailure, collection.listener
    ensures collection.listener.events == old(collection.listener.events) + [FailedWith(e1)]
  {
    collection.OnSearchFailure(e1);
    collection.OnSearchFailure(e2);
  }
}
