/**
 * `PutExperimentTransportAction`: creates an experiment and runs it. The
 * experiment is stored as PROCESSING and the caller answered at once; then
 * the query set is fetched, then every search configuration, and once the
 * last configuration has arrived every query text is dispatched to the
 * experiment type's processor. Each query's results are tagged with its
 * query text; the experiment is written COMPLETED when the last query
 * answers, or ERROR on a failure.
 *
 * The DAOs are the `ExperimentDao` log of writes and the fetch outcomes
 * given to the callbacks; each callback is an event method.
 */
module PutExperiment {
  import opened Common
  import opened Concurrent
  import HybridProcessor
  import TaskContext
  import TaskManager
  import Model
  import QuerySource
  import JudgmentRatings
  import MetricsHelper

  const NullRequestMessage: string := "Request cannot be null"
  const InitialStoreFailedMessage: string := "Failed to create initial experiment"
  const QuerySetNotFoundMessage: string := "QuerySet not found"
  const SearchConfigurationNotFoundMessage: string := "SearchConfiguration not found"
  /** `"Unknown experimentType" + null`: the only type that matches no branch is a null one. */
  const UnknownTypeMessage: string := "Unknown experimentType" + "null"

  /** A `PutExperimentRequest`; the type is nullable. */
  datatype PutExperimentRequest = PutExperimentRequest(
    experimentType: Option<ExperimentType>,
    querySetId: string,
    searchConfigurationList: seq<string>,
    judgmentList: seq<string>,
    size: int)

  /** What a processor answers for one query text, by experiment type. */
  datatype QueryResults =
    | PairwiseQueryResults(pairwise: MetricsHelper.PairwiseResults)
    | HybridQueryResults(searchConfigurationResults: seq<HybridProcessor.ConfigResult>)
    | PointwiseQueryResults(fields: map<string, Json>)

  /** One entry of an experiment's results. */
  datatype ResultEntry =
    | ConfigEntry(queryText: string, config: HybridProcessor.ConfigResult)
    | QueryEntry(queryText: string, results: QueryResults)
    | ErrorEntry(error: string)

  /** An `Experiment` document. */
  datatype Experiment = Experiment(
    id: string,
    timestamp: string,
    experimentType: Option<ExperimentType>,
    status: AsyncStatus,
    querySetId: string,
    searchConfigurationList: seq<string>,
    judgmentList: seq<string>,
    size: int,
    results: seq<ResultEntry>)

  function InitialExperiment(id: string, timestamp: string, request: PutExperimentRequest): Experiment
  {
    Experiment(id, timestamp, request.experimentType, Processing, request.querySetId,
      request.searchConfigurationList, request.judgmentList, request.size, [])
  }

  function FinalExperiment(id: string, timestamp: string, request: PutExperimentRequest, judgmentList: seq<string>,
                           results: seq<ResultEntry>): Experiment
  {
    Experiment(id, timestamp, request.experimentType, Completed, request.querySetId,
      request.searchConfigurationList, judgmentList, request.size, results)
  }

  /** `handleAsyncFailure`'s document: ERROR, with the error's own message as the only result. */
  function ErrorExperiment(id: string, timestamp: string, request: PutExperimentRequest, error: Throwable): Experiment
  {
    Experiment(id, timestamp, request.experimentType, Error, request.querySetId,
      request.searchConfigurationList, request.judgmentList, request.size, [ErrorEntry(error.message)])
  }

  function Refusal(message: string, status: RestStatus, cause: Option<Throwable>): Throwable
  {
    Throwable(SearchRelevanceException(status), message, cause)
  }

  /** The experiment index: every put and update the action issues, in order. */
  class ExperimentDao {
    var writes: seq<Experiment>

    constructor ()
      ensures writes == []
    {
      writes := [];
    }

    method PutExperiment(e: Experiment)
      modifies this
      ensures writes == old(writes) + [e]
    {
      writes := writes + [e];
    }

    method UpdateExperiment(e: Experiment)
      modifies this
      ensures writes == old(writes) + [e]
    {
      writes := writes + [e];
    }
  }

  // ---------------------------------------------------------------------
  // doExecute
  // ---------------------------------------------------------------------

  /**
   * `doExecute`. A null request is refused before anything is stored.
   * Otherwise the PROCESSING experiment is put; if that fails the caller
   * gets an INTERNAL_SERVER_ERROR, else the id, and processing starts
   * (`started`). `storeError` is the outcome of the put.
   */
  method DoExecute(dao: ExperimentDao, request: Option<PutExperimentRequest>, id: string, timestamp: string,
                   storeError: Option<Throwable>, listener: Listener<string>) returns (started: bool)
    modifies dao, listener
    ensures request.None? ==>
      && dao.writes == old(dao.writes) && !started
      && listener.events == old(listener.events) + [FailedWith(Refusal(NullRequestMessage, BadRequest, None))]
    ensures request.Some? ==> dao.writes == old(dao.writes) + [InitialExperiment(id, timestamp, request.value)]
    ensures request.Some? && storeError.Some? ==>
      && !started
      && listener.events == old(listener.events)
           + [FailedWith(Refusal(InitialStoreFailedMessage, InternalServerError, storeError))]
    ensures request.Some? && storeError.None? ==> started && listener.events == old(listener.events) + [Responded(id)]
  {
    if request.None? {
      listener.OnFailure(Refusal(NullRequestMessage, BadRequest, None));
      return false;
    }
    dao.PutExperiment(InitialExperiment(id, timestamp, request.value));
    if storeError.Some? {
      listener.OnFailure(Refusal(InitialStoreFailedMessage, InternalServerError, storeError));
      return false;
    }
    listener.OnResponse(id);
    started := true;
  }

  // ---------------------------------------------------------------------
  // convertToQuerySet and convertToSearchConfiguration
  // ---------------------------------------------------------------------

  /** A lookup response: its total hit count and the source of its first hit. */
  datatype SourceResponse = SourceResponse(totalHits: nat, source: map<string, Json>)

  function CastFailure(): Throwable
  {
    Throwable(ClassCastException, "", None)
  }

  /** `(String) source.get(key)`: null when absent or null, a cast failure when not a string. */
  function StringField(source: map<string, Json>, key: string): (r: Result<Option<string>>)
    ensures r.Ok? <==> key !in source || source[key].JNull? || source[key].JStr?
    ensures r.Ok? && key in source && source[key].JStr? ==> r.value == Some(source[key].s)
    ensures r.Ok? && (key !in source || source[key].JNull?) ==> r.value.None?
  {
    if key !in source || source[key].JNull? then Ok(None)
    else if source[key].JStr? then Ok(Some(source[key].s))
    else Err(CastFailure())
  }

  /** The query texts of the `querySetQueries` entries, each entry cast to a map. */
  function EntryQueryTexts(items: seq<Json>): (r: Result<seq<Option<string>>>)
    ensures r.Ok? ==> |r.value| == |items|
  {
    if items == [] then Ok([])
    else if !items[0].JObject? then Err(CastFailure())
    else
      match StringField(items[0].fields, "queryText")
      case Err(e) => Err(e)
      case Ok(first) =>
        match EntryQueryTexts(items[1..])
        case Err(e) => Err(e)
        case Ok(rest) => Ok([first] + rest)
  }

  /**
   * `convertToQuerySet`, reduced to the query texts the action reads from
   * it. No hits is NOT_FOUND; a `querySetQueries` that is not a list gives
   * no queries; the entries and the other string fields must cast.
   */
  function ConvertToQuerySet(response: SourceResponse): (r: Result<seq<Option<string>>>)
    ensures response.totalHits == 0 ==> r == Err(Refusal(QuerySetNotFoundMessage, NotFound, None))
    ensures r.Ok? && !("querySetQueries" in response.source && response.source["querySetQueries"].JList?) ==> r.value == []
  {
    if response.totalHits == 0 then Err(Refusal(QuerySetNotFoundMessage, NotFound, None))
    else
      var source := response.source;
      var texts := if "querySetQueries" in source && source["querySetQueries"].JList?
                   then EntryQueryTexts(source["querySetQueries"].items) else Ok([]);
      if texts.Err? then texts
      else if StringField(source, "id").Err? then Err(CastFailure())
      else if StringField(source, "name").Err? then Err(CastFailure())
      else if StringField(source, "description").Err? then Err(CastFailure())
      else if StringField(source, "timestamp").Err? then Err(CastFailure())
      else if StringField(source, "sampling").Err? then Err(CastFailure())
      else texts
  }

  /** The stored form of a list of query texts. */
  function QuerySetEntries(texts: seq<string>): (items: seq<Json>)
    ensures |items| == |texts|
  {
    if texts == [] then [] else [JObject(map["queryText" := JStr(texts[0])])] + QuerySetEntries(texts[1..])
  }

  /** The query texts, each present. */
  function Present(texts: seq<string>): (r: seq<Option<string>>)
    ensures |r| == |texts| && forall i :: 0 <= i < |texts| ==> r[i] == Some(texts[i])
  {
    if texts == [] then [] else [Some(texts[0])] + Present(texts[1..])
  }

  lemma {:induction false} EntryQueryTextsOfEntries(texts: seq<string>)
    ensures EntryQueryTexts(QuerySetEntries(texts)) == Ok(Present(texts))
  {
    if texts != [] {
      EntryQueryTextsOfEntries(texts[1..]);
      var entries := QuerySetEntries(texts);
      assert entries[1..] == QuerySetEntries(texts[1..]);
      assert StringField(entries[0].fields, "queryText") == Ok(Some(texts[0]));
    }
  }

  /** A found query set gives back its query texts, in order. */
  lemma QuerySetRoundTrip(texts: seq<string>, totalHits: nat)
    requires totalHits > 0
    ensures ConvertToQuerySet(SourceResponse(totalHits, map["querySetQueries" := JList(QuerySetEntries(texts))]))
      == Ok(Present(texts))
  {
    EntryQueryTextsOfEntries(texts);
  }

  /** The fields of a fetched search configuration, each nullable. */
  datatype FetchedConfiguration = FetchedConfiguration(
    id: Option<string>, name: Option<string>, timestamp: Option<string>,
    index: Option<string>, query: Option<string>, searchPipeline: Option<string>)

  /** `convertToSearchConfiguration`: no hits is NOT_FOUND; the six fields must cast. */
  function ConvertToSearchConfiguration(response: SourceResponse): (r: Result<FetchedConfiguration>)
    ensures response.totalHits == 0 ==> r == Err(Refusal(SearchConfigurationNotFoundMessage, NotFound, None))
    ensures response.totalHits > 0 ==> (r.Ok? <==>
      && StringField(response.source, "id").Ok? && StringField(response.source, "name").Ok?
      && StringField(response.source, "timestamp").Ok? && StringField(response.source, "index").Ok?
      && StringField(response.source, "query").Ok? && StringField(response.source, "searchPipeline").Ok?)
    ensures r.Ok? ==> r.value == FetchedConfiguration(
      StringField(response.source, "id").value, StringField(response.source, "name").value,
      StringField(response.source, "timestamp").value, StringField(response.source, "index").value,
      StringField(response.source, "query").value, StringField(response.source, "searchPipeline").value)
  {
    if response.totalHits == 0 then Err(Refusal(SearchConfigurationNotFoundMessage, NotFound, None))
    else
      var s := response.source;
      var id := StringField(s, "id");
      var name := StringField(s, "name");
      var timestamp := StringField(s, "timestamp");
      var index := StringField(s, "index");
      var query := StringField(s, "query");
      var pipeline := StringField(s, "searchPipeline");
      if id.Err? || name.Err? || timestamp.Err? || index.Err? || query.Err? || pipeline.Err? then Err(CastFailure())
      else Ok(FetchedConfiguration(id.value, name.value, timestamp.value, index.value, query.value, pipeline.value))
  }

  /**
   * The query set callbacks of `triggerAsyncProcessing`: a failed fetch or
   * a failed conversion writes the ERROR experiment (no flag is involved);
   * otherwise the query texts go on to the configuration fetch.
   */
  method OnQuerySet(dao: ExperimentDao, experimentId: string, request: PutExperimentRequest, timestamp: string,
                    fetched: Result<SourceResponse>) returns (queryTexts: Option<seq<Option<string>>>)
    modifies dao
    ensures fetched.Err? ==>
      queryTexts.None? && dao.writes == old(dao.writes) + [ErrorExperiment(experimentId, timestamp, request, fetched.error)]
    ensures fetched.Ok? && ConvertToQuerySet(fetched.value).Err? ==>
      && queryTexts.None?
      && dao.writes == old(dao.writes) + [ErrorExperiment(experimentId, timestamp, request, ConvertToQuerySet(fetched.value).error)]
    ensures fetched.Ok? && ConvertToQuerySet(fetched.value).Ok? ==>
      queryTexts == Some(ConvertToQuerySet(fetched.value).value) && dao.writes == old(dao.writes)
  {
    if fetched.Err? {
      dao.UpdateExperiment(ErrorExperiment(experimentId, timestamp, request, fetched.error));
      return None;
    }
    var converted := ConvertToQuerySet(fetched.value);
    if converted.Err? {
      dao.UpdateExperiment(ErrorExperiment(experimentId, timestamp, request, converted.error));
      return None;
    }
    queryTexts := Some(converted.value);
  }

  // ---------------------------------------------------------------------
  // Query results
  // ---------------------------------------------------------------------

  /**
   * The entries one query's results add: for a hybrid optimizer experiment,
   * each configuration result tagged with the query text; for any other
   * type, the whole result tagged once.
   */
  function Tagged(experimentType: Option<ExperimentType>, queryText: string, results: QueryResults): (entries: seq<ResultEntry>)
    ensures experimentType != Some(HybridOptimizer) ==> entries == [QueryEntry(queryText, results)]
    ensures experimentType == Some(HybridOptimizer) && results.HybridQueryResults? ==>
      && |entries| == |results.searchConfigurationResults|
      && forall i :: 0 <= i < |entries| ==> entries[i] == ConfigEntry(queryText, results.searchConfigurationResults[i])
    ensures experimentType == Some(HybridOptimizer) && !results.HybridQueryResults? ==> entries == []
  {
    if experimentType == Some(HybridOptimizer) then
      if results.HybridQueryResults? then
        seq(|results.searchConfigurationResults|, i requires 0 <= i < |results.searchConfigurationResults| =>
          ConfigEntry(queryText, results.searchConfigurationResults[i]))
      else []
    else [QueryEntry(queryText, results)]
  }

  /** Every entry added for a query carries that query's text. */
  lemma TaggedCarriesQueryText(experimentType: Option<ExperimentType>, queryText: string, results: QueryResults, i: nat)
    requires i < |Tagged(experimentType, queryText, results)|
    ensures Tagged(experimentType, queryText, results)[i].queryText == queryText
  {
  }

  /** The processor a query text is dispatched to. */
  datatype Dispatched = Dispatched(queryText: string, processor: ExperimentType)

  // ---------------------------------------------------------------------
  // handleFailure
  // ---------------------------------------------------------------------

  /**
   * `handleFailure` as written: it sets the query phase's flag and writes
   * the ERROR experiment only if the flag was clear.
   */
  function HandleFailureOutcome(flagBefore: bool, experimentId: string, timestamp: string, request: PutExperimentRequest,
                                error: Throwable): (r: (bool, Option<Experiment>))
    ensures r.0
    ensures r.1.Some? <==> !flagBefore
    ensures r.1.Some? ==> r.1.value.status.Error? && r.1.value.results == [ErrorEntry(error.message)]
  {
    (true, if flagBefore then None else Some(ErrorExperiment(experimentId, timestamp, request, error)))
  }

  /**
   * The evident intent for a failure the hybrid processor reports: it has
   * already won the shared flag, so the ERROR experiment is written without
   * a second compare-and-set.
   */
  function HandleReportedFailureOutcome(experimentId: string, timestamp: string, request: PutExperimentRequest,
                                        error: Throwable): (r: Experiment)
    ensures r.status.Error? && r.id == experimentId && r.results == [ErrorEntry(error.message)]
  {
    ErrorExperiment(experimentId, timestamp, request, error)
  }

  /**
   * The query phase of one experiment (`processQueryTextMetrics` onwards):
   * the tagged results so far, the queries still pending, and its own
   * failure flag, which the hybrid optimizer processor shares.
   */
  class QueryPhase {
    const experimentId: string
    const request: PutExperimentRequest
    const dao: ExperimentDao
    const hasFailure: AtomicFlag
    const queryCount: nat
    var finalResults: seq<ResultEntry>
    var pendingQueries: int
    var dispatched: seq<Dispatched>
    /** Number of COMPLETED writes issued. */
    ghost var completions: nat
    /** Number of ERROR writes issued by `handleFailure`. */
    ghost var failureWrites: nat

    /**
     * COMPLETED is written once, when the count of pending queries has
     * reached zero from a positive start; an ERROR write from
     * `handleFailure` happens at most once, and only with the flag set.
     */
    ghost predicate Valid()
      reads this, hasFailure
    {
      && completions == (if queryCount > 0 && pendingQueries <= 0 then 1 else 0)
      && failureWrites <= 1
      && (failureWrites == 1 ==> hasFailure.value)
      && pendingQueries <= queryCount
    }

    constructor (experimentId: string, request: PutExperimentRequest, dao: ExperimentDao, queryTexts: seq<string>)
      ensures Valid() && fresh(hasFailure) && !hasFailure.value
      ensures this.experimentId == experimentId && this.request == request && this.dao == dao
      ensures queryCount == |queryTexts| && pendingQueries == |queryTexts|
      ensures finalResults == [] && dispatched == [] && completions == 0 && failureWrites == 0
    {
      this.experimentId := experimentId;
      this.request := request;
      this.dao := dao;
      hasFailure := new AtomicFlag(false);
      queryCount := |queryTexts|;
      pendingQueries := |queryTexts|;
      finalResults := [];
      dispatched := [];
      completions := 0;
      failureWrites := 0;
    }

    /**
     * `executeExperimentEvaluation`: dispatches the query texts in order,
     * stopping if the flag is set; a null type throws on the first query.
     */
    method Dispatch(queryTexts: seq<string>) returns (error: Option<Throwable>)
      modifies this
      ensures unchanged(this`finalResults, this`pendingQueries, this`completions, this`failureWrites)
      ensures hasFailure.value ==> dispatched == old(dispatched) && error.None?
      ensures !hasFailure.value && request.experimentType.Some? ==>
        && error.None?
        && dispatched == old(dispatched)
             + seq(|queryTexts|, i requires 0 <= i < |queryTexts| => Dispatched(queryTexts[i], request.experimentType.value))
      ensures !hasFailure.value && request.experimentType.None? ==>
        && dispatched == old(dispatched)
        && (error.Some? <==> queryTexts != [])
        && (error.Some? ==> error.value == Refusal(UnknownTypeMessage, BadRequest, None))
    {
      ghost var expected := seq(|queryTexts|, i requires 0 <= i < |queryTexts| =>
        Dispatched(queryTexts[i], if request.experimentType.Some? then request.experimentType.value else PointwiseEvaluation));
      var i := 0;
      while i < |queryTexts|
        invariant 0 <= i <= |queryTexts|
        invariant unchanged(this`finalResults, this`pendingQueries, this`completions, this`failureWrites)
        invariant dispatched == old(dispatched) + expected[..i]
        invariant hasFailure.value ==> i == 0
        invariant request.experimentType.None? ==> i == 0
      {
        if hasFailure.value {
          return None;
        }
        if request.experimentType.None? {
          return Some(Refusal(UnknownTypeMessage, BadRequest, None));
        }
        dispatched := dispatched + [Dispatched(queryTexts[i], request.experimentType.value)];
        assert expected[..i + 1] == expected[..i] + [expected[i]];
        i := i + 1;
      }
      assert expected[..|queryTexts|] == expected;
      error := None;
    }

    /**
     * `handleQueryResults`: ignored once the flag is set; otherwise the
     * tagged entries are appended and the last query writes the COMPLETED
     * experiment, whose failed update writes ERROR instead.
     */
    method OnQueryResults(queryText: string, results: QueryResults, judgmentList: seq<string>, timestamp: string,
                          updateError: Option<Throwable>)
      requires Valid()
      modifies this, dao
      ensures Valid()
      ensures old(hasFailure.value) ==>
        finalResults == old(finalResults) && pendingQueries == old(pendingQueries) && dao.writes == old(dao.writes)
      ensures !old(hasFailure.value) ==>
        && finalResults == old(finalResults) + Tagged(request.experimentType, queryText, results)
        && pendingQueries == old(pendingQueries) - 1
      ensures !old(hasFailure.value) && pendingQueries != 0 ==> dao.writes == old(dao.writes)
      ensures !old(hasFailure.value) && pendingQueries == 0 ==>
        dao.writes == old(dao.writes) + [FinalExperiment(experimentId, timestamp, request, judgmentList, finalResults)]
          + (if updateError.Some? then [ErrorExperiment(experimentId, timestamp, request, updateError.value)] else [])
    {
      if hasFailure.value {
        return;
      }
      finalResults := finalResults + Tagged(request.experimentType, queryText, results);
      pendingQueries := pendingQueries - 1;
      if pendingQueries == 0 {
        completions := completions + 1;
        dao.UpdateExperiment(FinalExperiment(experimentId, timestamp, request, judgmentList, finalResults));
        if updateError.Some? {
          dao.UpdateExperiment(ErrorExperiment(experimentId, timestamp, request, updateError.value));
        }
      }
    }

    /** `handleFailure` as written (see `HandleFailureOutcome`). */
    method OnFailure(error: Throwable, timestamp: string)
      requires Valid()
      modifies hasFailure, dao, this
      ensures Valid()
      ensures hasFailure.value
      ensures unchanged(this`finalResults, this`pendingQueries, this`dispatched)
      ensures var (_, write) := HandleFailureOutcome(old(hasFailure.value), experimentId, timestamp, request, error);
        dao.writes == old(dao.writes) + (if write.Some? then [write.value] else [])
    {
      var won := hasFailure.CompareAndSet(false, true);
      if won {
        failureWrites := failureWrites + 1;
        dao.UpdateExperiment(ErrorExperiment(experimentId, timestamp, request, error));
      }
    }

    /**
     * The corrected listener failure for hybrid optimizer experiments: the
     * processor reports only after winning the shared flag, so the ERROR
     * experiment is written directly.
     */
    method OnReportedHybridFailure(error: Throwable, timestamp: string)
      requires Valid()
      requires hasFailure.value
      modifies dao
      ensures Valid()
      ensures dao.writes == old(dao.writes) + [HandleReportedFailureOutcome(experimentId, timestamp, request, error)]
    {
      dao.UpdateExperiment(ErrorExperiment(experimentId, timestamp, request, error));
    }
  }

  /**
   * The hybrid optimizer processor is handed the query phase's own flag.
   * As written, when a judgment lookup fails it wins that flag and then
   * reports to the listener, whose `handleFailure` finds the flag set and
   * writes nothing: the experiment stays PROCESSING.
   */
  method HybridFailureNeverRecorded(processor: HybridProcessor.HybridOptimizerExperimentProcessor, phase: QueryPhase,
                                    queryText: string, configs: seq<HybridProcessor.ConfigTarget>, judgmentIds: seq<string>,
                                    size: int, combinations: seq<HybridProcessor.VariantCombination>,
                                    keys: QuerySource.OptionKeys, ids: seq<string>, timestamps: seq<string>,
                                    fetched: seq<Result<JudgmentRatings.JudgmentResponse>>, poolAccepts: seq<seq<bool>>,
                                    listener: Listener<seq<HybridProcessor.ConfigResult>>, failed: nat, timestamp: string)
    requires processor.taskManager.Valid() && phase.Valid() && !phase.hasFailure.value
    requires |ids| == |combinations| && |timestamps| == |combinations|
    requires |poolAccepts| == |configs| && forall i :: 0 <= i < |configs| ==> |poolAccepts[i]| == |combinations|
    requires |combinations| == 0 || QuerySource.DistinctKeys(keys)
    requires failed < |fetched| && fetched[failed].Err?
    modifies processor.taskManager, processor.taskManager.concurrencyControl, phase, phase.hasFailure, phase.dao, listener
    ensures phase.Valid() && phase.hasFailure.value
    ensures |listener.events| == |old(listener.events)| + 1 && listener.events[..|old(listener.events)|] == old(listener.events)
    ensures listener.events[|old(listener.events)|].FailedWith?
    ensures listener.events[|old(listener.events)|].error.message == HybridProcessor.FailedJudgmentsMessage
    ensures phase.dao.writes == old(phase.dao.writes)
  {
    var _, _ := processor.ProcessHybridOptimizerExperiment(phase.experimentId, queryText, configs, judgmentIds, size,
      combinations, keys, ids, timestamps, fetched, phase.hasFailure, listener, poolAccepts);
    var reported := listener.events[|listener.events| - 1].error;
    phase.OnFailure(reported, timestamp);
  }

  /**
   * The evident intent on the same path: the listener writes the failure it
   * is told of without a second compare-and-set, so the ERROR experiment is
   * written exactly once, with the processor's error.
   */
  method ReportedHybridFailureRecordedOnce(processor: HybridProcessor.HybridOptimizerExperimentProcessor, phase: QueryPhase,
                                           queryText: string, configs: seq<HybridProcessor.ConfigTarget>,
                                           judgmentIds: seq<string>, size: int,
                                           combinations: seq<HybridProcessor.VariantCombination>,
                                           keys: QuerySource.OptionKeys, ids: seq<string>, timestamps: seq<string>,
                                           fetched: seq<Result<JudgmentRatings.JudgmentResponse>>,
                                           poolAccepts: seq<seq<bool>>,
                                           listener: Listener<seq<HybridProcessor.ConfigResult>>, failed: nat,
                                           timestamp: string)
    requires processor.taskManager.Valid() && phase.Valid() && !phase.hasFailure.value
    requires |ids| == |combinations| && |timestamps| == |combinations|
    requires |poolAccepts| == |configs| && forall i :: 0 <= i < |configs| ==> |poolAccepts[i]| == |combinations|
    requires |combinations| == 0 || QuerySource.DistinctKeys(keys)
    requires failed < |fetched| && fetched[failed].Err?
    modifies processor.taskManager, processor.taskManager.concurrencyControl, phase.hasFailure, phase.dao, listener
    ensures phase.Valid() && phase.hasFailure.value
    ensures |listener.events| == |old(listener.events)| + 1 && listener.events[..|old(listener.events)|] == old(listener.events)
    ensures listener.events[|old(listener.events)|].FailedWith?
    ensures var error := listener.events[|old(listener.events)|].error;
      && error.message == HybridProcessor.FailedJudgmentsMessage
      && phase.dao.writes == old(phase.dao.writes) + [HandleReportedFailureOutcome(phase.experimentId, timestamp, phase.request, error)]
  {
    var _, _ := processor.ProcessHybridOptimizerExperiment(phase.experimentId, queryText, configs, judgmentIds, size,
      combinations, keys, ids, timestamps, fetched, phase.hasFailure, listener, poolAccepts);
    var reported := listener.events[|listener.events| - 1].error;
    phase.OnReportedHybridFailure(reported, timestamp);
  }

  /**
   * The batch path as written: a critical search failure in a batch makes
   * the task manager win the shared flag and fail the batch future; the
   * processor's `exceptionally` handler then loses the flag and reports
   * nothing, so the listener is never called and nothing is written.
   */
  method BatchFailureNeverReported(phase: QueryPhase, manager: TaskManager.HybridSearchTaskManager,
                                   ctx: TaskContext.ExperimentTaskContext, e: Throwable, variant: Model.ExperimentVariant,
                                   evaluationId: string, timestamp: string, configId: string,
                                   listener: Listener<seq<HybridProcessor.ConfigResult>>)
    requires phase.Valid() && !phase.hasFailure.value
    requires ctx.Valid() && ctx.hasFailure == phase.hasFailure && ctx.resultFuture.state.Pending?
    requires TaskManager.HasCriticalCause(e)
    modifies ctx.resultFuture, phase.hasFailure, listener
    ensures phase.Valid() && phase.hasFailure.value
    ensures ctx.resultFuture.state == Failed(e)
    ensures listener.events == old(listener.events)
    ensures phase.dao.writes == old(phase.dao.writes)
  {
    var _ := manager.HandleSearchFailure(e, variant, phase.experimentId, evaluationId, timestamp, ctx);
    HybridProcessor.OnConfigurationsSettled([configId], [ctx.resultFuture.state], phase.hasFailure, listener);
  }

  // ---------------------------------------------------------------------
  // fetchSearchConfigurationsAsync
  // ---------------------------------------------------------------------

  /** An `indexAndQueries` value: index, query template and search pipeline. */
  datatype ConfigEntry = ConfigValue(index: Option<string>, query: Option<string>, searchPipeline: Option<string>)

  /**
   * The configuration fetch of one experiment: the configurations fetched
   * so far (keyed by their nullable id), the count still pending, and the
   * phase's own failure flag.
   */
  class ConfigFetch {
    const experimentId: string
    const request: PutExperimentRequest
    const dao: ExperimentDao
    const hasFailure: AtomicFlag
    var indexAndQueries: map<Option<string>, ConfigEntry>
    var pendingConfigs: int
    /** The query phase started when the last configuration arrived. */
    var queryPhase: Option<QueryPhase>

    /** The query phase starts only when every configuration has arrived. */
    ghost predicate Valid()
      reads this
    {
      queryPhase.Some? ==> pendingConfigs <= 0
    }

    constructor (experimentId: string, request: PutExperimentRequest, dao: ExperimentDao)
      ensures Valid() && fresh(hasFailure) && !hasFailure.value
      ensures this.experimentId == experimentId && this.request == request && this.dao == dao
      ensures indexAndQueries == map[] && pendingConfigs == |request.searchConfigurationList| && queryPhase.None?
    {
      this.experimentId := experimentId;
      this.request := request;
      this.dao := dao;
      hasFailure := new AtomicFlag(false);
      indexAndQueries := map[];
      pendingConfigs := |request.searchConfigurationList|;
      queryPhase := None;
    }

    /**
     * A configuration lookup answered. Ignored once the flag is set. A
     * conversion failure marks the experiment ERROR only for the caller
     * that wins the flag. Otherwise the configuration is stored and, when
     * it is the last one, the query phase starts and dispatches the query
     * texts; a dispatch that throws is handled like a conversion failure.
     */
    method OnConfigResponse(response: SourceResponse, queryTexts: seq<string>, timestamp: string)
      requires Valid()
      modifies this, hasFailure, dao
      ensures Valid()
      ensures old(hasFailure.value) ==>
        indexAndQueries == old(indexAndQueries) && pendingConfigs == old(pendingConfigs) && dao.writes == old(dao.writes)
      ensures !old(hasFailure.value) && ConvertToSearchConfiguration(response).Err? ==>
        && hasFailure.value && indexAndQueries == old(indexAndQueries) && pendingConfigs == old(pendingConfigs)
        && dao.writes == old(dao.writes) + [ErrorExperiment(experimentId, timestamp, request, ConvertToSearchConfiguration(response).error)]
      ensures !old(hasFailure.value) && ConvertToSearchConfiguration(response).Ok? ==>
        var config := ConvertToSearchConfiguration(response).value;
        && indexAndQueries == old(indexAndQueries)[config.id := ConfigValue(config.index, config.query, config.searchPipeline)]
        && pendingConfigs == old(pendingConfigs) - 1
      ensures !old(hasFailure.value) && ConvertToSearchConfiguration(response).Ok? && pendingConfigs != 0 ==>
        queryPhase == old(queryPhase) && dao.writes == old(dao.writes)
      ensures !old(hasFailure.value) && ConvertToSearchConfiguration(response).Ok? && pendingConfigs == 0 ==>
        && queryPhase.Some? && fresh(queryPhase.value) && queryPhase.value.queryCount == |queryTexts|
        && (request.experimentType.Some? ==> dao.writes == old(dao.writes) && |queryPhase.value.dispatched| == |queryTexts|)
        && (request.experimentType.None? && queryTexts != [] ==>
              hasFailure.value
              && dao.writes == old(dao.writes) + [ErrorExperiment(experimentId, timestamp, request, Refusal(UnknownTypeMessage, BadRequest, None))])
    {
      if hasFailure.value {
        return;
      }
      var converted := ConvertToSearchConfiguration(response);
      if converted.Err? {
        var won := hasFailure.CompareAndSet(false, true);
        if won {
          dao.UpdateExperiment(ErrorExperiment(experimentId, timestamp, request, converted.error));
        }
        return;
      }
      var config := converted.value;
      indexAndQueries := indexAndQueries[config.id := ConfigValue(config.index, config.query, config.searchPipeline)];
      pendingConfigs := pendingConfigs - 1;
      if pendingConfigs == 0 {
        var phase := new QueryPhase(experimentId, request, dao, queryTexts);
        queryPhase := Some(phase);
        var error := phase.Dispatch(queryTexts);
        if error.Some? {
          var won := hasFailure.CompareAndSet(false, true);
          if won {
            dao.UpdateExperiment(ErrorExperiment(experimentId, timestamp, request, error.value));
          }
        }
      }
    }

    /**
     * A configuration lookup failed: only the caller that wins the flag
     * marks the experiment ERROR (the log message names the configuration).
     */
    method OnConfigFailure(configId: string, error: Throwable, timestamp: string)
      requires Valid()
      modifies hasFailure, dao
      ensures Valid()
      ensures hasFailure.value
      ensures dao.writes == old(dao.writes)
        + (if old(hasFailure.value) then [] else [ErrorExperiment(experimentId, timestamp, request, error)])
    {
      var won := hasFailure.CompareAndSet(false, true);
      if won {
        dao.UpdateExperiment(ErrorExperiment(experimentId, timestamp, request, error));
      }
    }
  }
}
