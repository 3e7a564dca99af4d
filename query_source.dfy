/**
 * `QuerySourceUtil`: the shape check for hybrid queries and the temporary
 * search pipeline built from an experiment variant's parameters.
 */
module QuerySource {
  import opened Common

  const NumberOfSubqueriesInHybridQuery: nat := 2

  /**
   * The parameter keys of a hybrid-search variant: normalization technique,
   * combination technique and combination weights. Their string values are
   * defined in a constants class that is not part of this model, so every
   * operation that reads them takes them as a parameter.
   */
  datatype OptionKeys = OptionKeys(normalizationTechnique: string, combinationTechnique: string, weightsForCombination: string)

  predicate DistinctKeys(keys: OptionKeys)
  {
    && keys.normalizationTechnique != keys.combinationTechnique
    && keys.normalizationTechnique != keys.weightsForCombination
    && keys.combinationTechnique != keys.weightsForCombination
  }

  function IllegalArgument(message: string): Throwable
  {
    Throwable(IllegalArgumentException, message, None)
  }

  const MissingQueryMessage: string := "search configuration must have at least one query"
  const NotHybridMessage: string := "query in search configuration must be of type hybrid"
  const NoSubQueriesMessage: string := "hybrid query in search configuration does not have sub-queries"

  function WrongCountMessage(found: nat): string
  {
    "invalid hybrid query: expected exactly [" + NatToString(NumberOfSubqueriesInHybridQuery)
    + "] sub-queries but found [" + NatToString(found) + "]"
  }

  // ---------------------------------------------------------------------
  // validateHybridQuery
  // ---------------------------------------------------------------------

  /** The object under `key`, if `key` is present and holds an object. */
  function ObjectAt(m: map<string, Json>, key: string): Option<map<string, Json>>
  {
    if key in m && m[key].JObject? then Some(m[key].fields) else None
  }

  /** `query.hybrid.queries`, if every step of that path has the right type. */
  function SubQueries(fullQueryMap: map<string, Json>): Option<seq<Json>>
  {
    match ObjectAt(fullQueryMap, "query")
    case None => None
    case Some(query) =>
      match ObjectAt(query, "hybrid")
      case None => None
      case Some(hybrid) =>
        if "queries" in hybrid && hybrid["queries"].JList? then Some(hybrid["queries"].items) else None
  }

  /**
   * `validateHybridQuery`: `None` when the query is a hybrid query with
   * exactly two sub-queries, otherwise the `IllegalArgumentException` of the
   * first check that fails.
   */
  function ValidateHybridQuery(fullQueryMap: map<string, Json>): (r: Option<Throwable>)
    ensures r.None? <==> SubQueries(fullQueryMap).Some? && |SubQueries(fullQueryMap).value| == NumberOfSubqueriesInHybridQuery
    ensures ObjectAt(fullQueryMap, "query").None? ==> r == Some(IllegalArgument(MissingQueryMessage))
    ensures ObjectAt(fullQueryMap, "query").Some? && ObjectAt(ObjectAt(fullQueryMap, "query").value, "hybrid").None? ==>
      r == Some(IllegalArgument(NotHybridMessage))
    ensures (ObjectAt(fullQueryMap, "query").Some? && ObjectAt(ObjectAt(fullQueryMap, "query").value, "hybrid").Some?
             && SubQueries(fullQueryMap).None?) ==> r == Some(IllegalArgument(NoSubQueriesMessage))
    ensures SubQueries(fullQueryMap).Some? && |SubQueries(fullQueryMap).value| != NumberOfSubqueriesInHybridQuery ==>
      r == Some(IllegalArgument(WrongCountMessage(|SubQueries(fullQueryMap).value|)))
  {
    if ObjectAt(fullQueryMap, "query").None? then Some(IllegalArgument(MissingQueryMessage))
    else
      var query := ObjectAt(fullQueryMap, "query").value;
      if ObjectAt(query, "hybrid").None? then Some(IllegalArgument(NotHybridMessage))
      else
        var hybrid := ObjectAt(query, "hybrid").value;
        if !("queries" in hybrid && hybrid["queries"].JList?) then Some(IllegalArgument(NoSubQueriesMessage))
        else
          var queries := hybrid["queries"].items;
          if |queries| != NumberOfSubqueriesInHybridQuery then Some(IllegalArgument(WrongCountMessage(|queries|)))
          else None
  }

  /** A full query whose `query` is `{"hybrid": {"queries": [first, second]}}`. */
  function HybridQuery(first: Json, second: Json, rest: map<string, Json>): map<string, Json>
  {
    rest["query" := JObject(map["hybrid" := JObject(map["queries" := JList([first, second])])])]
  }

  /** Every hybrid query with two sub-queries passes, whatever else the request carries. */
  lemma HybridQueryValid(first: Json, second: Json, rest: map<string, Json>)
    ensures ValidateHybridQuery(HybridQuery(first, second, rest)) == None
    ensures SubQueries(HybridQuery(first, second, rest)) == Some([first, second])
  {
  }

  // ---------------------------------------------------------------------
  // createDefinitionOfTemporarySearchPipeline
  // ---------------------------------------------------------------------

  /** `Map.get` on the variant parameters: absent and JSON null both read as null. */
  function Get(parameters: map<string, Json>, key: string): Option<Json>
  {
    if key in parameters && !parameters[key].JNull? then Some(parameters[key]) else None
  }

  /** The `float[]` weights, widened to `double`, as a JSON list. */
  function WeightList(weights: seq<real>): (r: Json)
    ensures r.JList? && |r.items| == |weights|
    ensures forall i :: 0 <= i < |weights| ==> r.items[i] == JNum(weights[i])
  {
    JList(seq(|weights|, i requires 0 <= i < |weights| => JNum(weights[i])))
  }

  /**
   * `createDefinitionOfTemporarySearchPipeline`. `Map.of` refuses a null
   * technique (`NullPointerException`, normalization checked first); a
   * non-null weights value that is not a `float[]` fails its cast.
   */
  function CreateDefinitionOfTemporarySearchPipeline(parameters: map<string, Json>, keys: OptionKeys): (r: Result<Json>)
    ensures Get(parameters, keys.normalizationTechnique).None? ==> r.Err? && r.error.kind.NullPointerException?
    ensures Get(parameters, keys.normalizationTechnique).Some? && Get(parameters, keys.combinationTechnique).None? ==>
      r.Err? && r.error.kind.NullPointerException?
    ensures r.Ok? <==>
      && Get(parameters, keys.normalizationTechnique).Some?
      && Get(parameters, keys.combinationTechnique).Some?
      && (Get(parameters, keys.weightsForCombination).None? || Get(parameters, keys.weightsForCombination).value.JFloatArray?)
  {
    var normalization := Get(parameters, keys.normalizationTechnique);
    var combination := Get(parameters, keys.combinationTechnique);
    var weights := Get(parameters, keys.weightsForCombination);
    if normalization.None? || combination.None? then
      Err(Throwable(NullPointerException, "", None))
    else if weights.Some? && !weights.value.JFloatArray? then
      Err(Throwable(ClassCastException, "", None))
    else
      var combinationConfig :=
        if weights.None? then map["technique" := combination.value]
        else map["technique" := combination.value, "parameters" := JObject(map["weights" := WeightList(weights.value.floats)])];
      var processor := map[
        "normalization" := JObject(map["technique" := normalization.value]),
        "combination" := JObject(combinationConfig)];
      Ok(JObject(map["phase_results_processors" := JList([JObject(map["normalization-processor" := JObject(processor)])])]))
  }

  /** What a temporary pipeline sets: the two techniques and, if given, the weights. */
  datatype PipelineSettings = PipelineSettings(normalization: Json, combination: Json, weights: Option<seq<real>>)

  /** Reads a list of JSON numbers back. */
  function ReadNumbers(items: seq<Json>): (r: Option<seq<real>>)
    ensures r.Some? ==> |r.value| == |items|
  {
    if items == [] then Some([])
    else if !items[|items| - 1].JNum? then None
    else
      match ReadNumbers(items[..|items| - 1])
      case None => None
      case Some(front) => Some(front + [items[|items| - 1].n])
  }

  lemma {:induction false} ReadNumbersOfWeightList(weights: seq<real>)
    ensures ReadNumbers(WeightList(weights).items) == Some(weights)
  {
    if weights != [] {
      var front := weights[..|weights| - 1];
      ReadNumbersOfWeightList(front);
      assert WeightList(weights).items[..|weights| - 1] == WeightList(front).items;
      assert weights == front + [weights[|weights| - 1]];
    }
  }

  /**
   * Reads the settings back out of a pipeline of the shape
   * `{"phase_results_processors": [{"normalization-processor": {...}}]}`.
   */
  function ReadPipeline(pipeline: Json): Option<PipelineSettings>
  {
    var list := if pipeline.JObject? && "phase_results_processors" in pipeline.fields
                   && pipeline.fields["phase_results_processors"].JList?
                then pipeline.fields["phase_results_processors"].items else [];
    var processor := if |list| == 1 && list[0].JObject? then ObjectAt(list[0].fields, "normalization-processor") else None;
    var normalization := if processor.Some? then ObjectAt(processor.value, "normalization") else None;
    var combination := if processor.Some? then ObjectAt(processor.value, "combination") else None;
    if normalization.None? || combination.None? then None
    else if "technique" !in normalization.value || "technique" !in combination.value then None
    else if "parameters" !in combination.value then
      Some(PipelineSettings(normalization.value["technique"], combination.value["technique"], None))
    else
      var parameters := ObjectAt(combination.value, "parameters");
      var weights := if parameters.Some? && "weights" in parameters.value && parameters.value["weights"].JList?
                     then ReadNumbers(parameters.value["weights"].items) else None;
      if weights.None? then None
      else Some(PipelineSettings(normalization.value["technique"], combination.value["technique"], weights))
  }

  /**
   * The pipeline carries exactly what the variant's parameters say: both
   * techniques unchanged, and weights iff the weights parameter is non-null,
   * with the same length, values and order.
   */
  lemma TemporaryPipelineCarriesParameters(parameters: map<string, Json>, keys: OptionKeys)
    requires CreateDefinitionOfTemporarySearchPipeline(parameters, keys).Ok?
    ensures ReadPipeline(CreateDefinitionOfTemporarySearchPipeline(parameters, keys).value) == Some(PipelineSettings(
      parameters[keys.normalizationTechnique],
      parameters[keys.combinationTechnique],
      if Get(parameters, keys.weightsForCombination).Some? then Some(parameters[keys.weightsForCombination].floats) else None))
  {
    var weights := Get(parameters, keys.weightsForCombination);
    if weights.Some? {
      ReadNumbersOfWeightList(weights.value.floats);
    }
  }
}
