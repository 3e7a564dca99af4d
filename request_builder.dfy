/**
 * `SearchRequestBuilder`: turns a search configuration's query template
 * into a search request. The placeholder is replaced by the query text, the
 * result is parsed, its `query` part is passed through as a wrapper query
 * and the rest goes to the search source; the size is always 200.
 *
 * JSON parsing and `SearchSourceBuilder.fromXContent` are library code:
 * they are the two functions of `Parsers`, and whatever they return or
 * throw is what the builder sees.
 */
module RequestBuilder {
  import opened Common
  import opened QuerySource

  const QueryFieldName: string := "query"
  const SizeFieldName: string := "size"
  /** The size every built request carries, whatever the caller asked for. */
  const FixedSize: int := 200
  const FailedToBuildMessage: string := "Failed to build search request"
  const PipelineNotAllowedMessage: string := "search pipeline is not allowed in search request"

  /**
   * A `SearchSourceBuilder`: the fields it was parsed from, the wrapper
   * query, the size and the temporary pipeline definition.
   */
  datatype SearchSource = SearchSource(
    fields: map<string, Json>,
    query: Option<Json>,
    size: Option<int>,
    pipelineSource: Option<map<string, Json>>)

  /** A `SearchRequest`: target index, named pipeline and source. */
  datatype SearchRequest = SearchRequest(index: string, pipeline: Option<string>, source: SearchSource)

  /** The library parsers: JSON text to a map, and a map to a search source. */
  datatype Parsers = Parsers(
    parseMap: string -> Result<map<string, Json>>,
    parseSource: map<string, Json> -> Result<SearchSource>)

  /** An `IOException` becomes `IllegalArgumentException("Failed to build search request")`; others pass. */
  function Rethrown(e: Throwable): (r: Throwable)
    ensures e.kind.IOException? ==> r.kind.IllegalArgumentException? && r.message == FailedToBuildMessage && r.cause == Some(e)
    ensures !e.kind.IOException? ==> r == e
  {
    if e.kind.IOException? then Throwable(IllegalArgumentException, FailedToBuildMessage, Some(e)) else e
  }

  /** `query.replace(WILDCARD_QUERY_TEXT, queryText)`. */
  function ProcessedQuery(query: string, queryText: string, placeholder: string): string
    requires |placeholder| > 0
  {
    ReplaceAll(query, placeholder, queryText)
  }

  /** The value `fullQueryMap.remove("query")` returns, when it is not null. */
  function QueryObject(fullQueryMap: map<string, Json>): Option<Json>
  {
    if QueryFieldName in fullQueryMap && !fullQueryMap[QueryFieldName].JNull? then Some(fullQueryMap[QueryFieldName]) else None
  }

  /**
   * The size precheck reads `((Number) size).intValue()` only to log a
   * mismatch, but it throws for a `size` that is null or not a number.
   */
  function SizePrecheck(rest: map<string, Json>): (r: Option<Throwable>)
    ensures r.None? <==> SizeFieldName !in rest || rest[SizeFieldName].JNum?
  {
    if SizeFieldName !in rest || rest[SizeFieldName].JNum? then None
    else if rest[SizeFieldName].JNull? then Some(Throwable(NullPointerException, "", None))
    else Some(Throwable(ClassCastException, "", None))
  }

  /** The source with the wrapper query attached (if any) and the size forced to 200. */
  function Finish(source: SearchSource, queryObject: Option<Json>): SearchSource
  {
    var withQuery := if queryObject.Some? then source.(query := queryObject) else source;
    withQuery.(size := Some(FixedSize))
  }

  /** The template, with the placeholder replaced, parsed into a map. */
  function ParsedMap(query: string, queryText: string, placeholder: string, parsers: Parsers): Result<map<string, Json>>
    requires |placeholder| > 0
  {
    parsers.parseMap(ProcessedQuery(query, queryText, placeholder))
  }

  /** Everything but the `query` field, parsed as a search source. */
  function ParsedSource(fullQueryMap: map<string, Json>, parsers: Parsers): Result<SearchSource>
  {
    parsers.parseSource(fullQueryMap - {QueryFieldName})
  }

  /** The source carries a temporary pipeline definition of its own. */
  predicate HasOwnPipeline(source: SearchSource)
  {
    source.pipelineSource.Some? && source.pipelineSource.value != map[]
  }

  /**
   * `buildSearchRequest`. `size` is ignored: the request always asks for
   * 200 hits. A named pipeline is set iff `searchPipeline` is non-null and
   * non-empty. The steps fail in order: parsing the template, parsing the
   * source, then the size precheck.
   */
  function BuildSearchRequest(index: string, query: string, queryText: string, searchPipeline: Option<string>,
                              size: int, placeholder: string, parsers: Parsers): (r: Result<SearchRequest>)
    requires |placeholder| > 0
    ensures ParsedMap(query, queryText, placeholder, parsers).Err? ==>
      r == Err(Rethrown(ParsedMap(query, queryText, placeholder, parsers).error))
    ensures ParsedMap(query, queryText, placeholder, parsers).Ok? ==>
      var fullQueryMap := ParsedMap(query, queryText, placeholder, parsers).value;
      && (ParsedSource(fullQueryMap, parsers).Err? ==> r == Err(Rethrown(ParsedSource(fullQueryMap, parsers).error)))
      && (ParsedSource(fullQueryMap, parsers).Ok? && SizePrecheck(fullQueryMap - {QueryFieldName}).Some? ==>
            r == Err(SizePrecheck(fullQueryMap - {QueryFieldName}).value))
      && (ParsedSource(fullQueryMap, parsers).Ok? && SizePrecheck(fullQueryMap - {QueryFieldName}).None? ==>
            r.Ok? && r.value.source == Finish(ParsedSource(fullQueryMap, parsers).value, QueryObject(fullQueryMap)))
    ensures r.Ok? ==> r.value.index == index && r.value.source.size == Some(FixedSize)
    ensures r.Ok? ==> (r.value.pipeline.Some? <==> searchPipeline.Some? && searchPipeline.value != [])
    ensures r.Ok? && r.value.pipeline.Some? ==> r.value.pipeline == searchPipeline
  {
    match ParsedMap(query, queryText, placeholder, parsers)
    case Err(e) => Err(Rethrown(e))
    case Ok(fullQueryMap) =>
      var queryObject := QueryObject(fullQueryMap);
      var rest := fullQueryMap - {QueryFieldName};
      match ParsedSource(fullQueryMap, parsers)
      case Err(e) => Err(Rethrown(e))
      case Ok(source) =>
        match SizePrecheck(rest)
        case Some(e) => Err(e)
        case None =>
          var pipeline := if searchPipeline.Some? && searchPipeline.value != [] then searchPipeline else None;
          Ok(SearchRequest(index, pipeline, Finish(source, queryObject)))
  }

  /**
   * `buildRequestForHybridSearch`. The parsed query must pass the hybrid
   * shape check; a source that already defines a non-empty temporary
   * pipeline is refused; the given pipeline is attached only when it is
   * non-empty. No named pipeline is ever set. The steps fail in order:
   * parsing, the shape check, parsing the source, the pipeline refusal,
   * then the size precheck.
   */
  function BuildRequestForHybridSearch(index: string, query: string, temporarySearchPipeline: map<string, Json>,
                                       queryText: string, size: int, placeholder: string, parsers: Parsers)
    : (r: Result<SearchRequest>)
    requires |placeholder| > 0
    ensures ParsedMap(query, queryText, placeholder, parsers).Err? ==>
      r == Err(Rethrown(ParsedMap(query, queryText, placeholder, parsers).error))
    ensures ParsedMap(query, queryText, placeholder, parsers).Ok? ==>
      var fullQueryMap := ParsedMap(query, queryText, placeholder, parsers).value;
      && (ValidateHybridQuery(fullQueryMap).Some? ==> r == Err(ValidateHybridQuery(fullQueryMap).value))
      && (ValidateHybridQuery(fullQueryMap).None? ==> HybridSourceStep(index, fullQueryMap, temporarySearchPipeline, parsers, r))
    ensures r.Ok? ==> r.value.index == index && r.value.pipeline.None? && r.value.source.size == Some(FixedSize)
    ensures r.Ok? && temporarySearchPipeline != map[] ==> r.value.source.pipelineSource == Some(temporarySearchPipeline)
    ensures r.Ok? && temporarySearchPipeline == map[] ==> r.value.source.pipelineSource.None? || r.value.source.pipelineSource == Some(map[])
  {
    match ParsedMap(query, queryText, placeholder, parsers)
    case Err(e) => Err(Rethrown(e))
    case Ok(fullQueryMap) =>
      match ValidateHybridQuery(fullQueryMap)
      case Some(e) => Err(Rethrown(e))
      case None =>
        var queryObject := QueryObject(fullQueryMap);
        var rest := fullQueryMap - {QueryFieldName};
        match ParsedSource(fullQueryMap, parsers)
        case Err(e) => Err(Rethrown(e))
        case Ok(source) =>
          if HasOwnPipeline(source) then
            Err(IllegalArgument(PipelineNotAllowedMessage))
          else
            var withPipeline := if temporarySearchPipeline != map[] then source.(pipelineSource := Some(temporarySearchPipeline)) else source;
            match SizePrecheck(rest)
            case Some(e) => Err(e)
            case None => Ok(SearchRequest(index, None, Finish(withPipeline, queryObject)))
  }

  /**
   * What the hybrid builder does once the query passed the shape check: a
   * failed source parse is rethrown, a source with its own non-empty
   * pipeline is refused, a bad size is thrown, and otherwise the request
   * carries the parsed source with the given pipeline (when non-empty) and
   * the wrapper query.
   */
  ghost predicate HybridSourceStep(index: string, fullQueryMap: map<string, Json>, temporarySearchPipeline: map<string, Json>,
                                   parsers: Parsers, r: Result<SearchRequest>)
  {
    var parsed := ParsedSource(fullQueryMap, parsers);
    var rest := fullQueryMap - {QueryFieldName};
    && (parsed.Err? ==> r == Err(Rethrown(parsed.error)))
    && (parsed.Ok? && HasOwnPipeline(parsed.value) ==> r == Err(IllegalArgument(PipelineNotAllowedMessage)))
    && (parsed.Ok? && !HasOwnPipeline(parsed.value) && SizePrecheck(rest).Some? ==> r == Err(SizePrecheck(rest).value))
    && (parsed.Ok? && !HasOwnPipeline(parsed.value) && SizePrecheck(rest).None? ==>
          var withPipeline := if temporarySearchPipeline != map[] then parsed.value.(pipelineSource := Some(temporarySearchPipeline))
                              else parsed.value;
          r == Ok(SearchRequest(index, None, Finish(withPipeline, QueryObject(fullQueryMap)))))
  }

  /** The size argument never changes the request that is built. */
  lemma SizeIsIgnored(index: string, query: string, queryText: string, searchPipeline: Option<string>,
                      temporarySearchPipeline: map<string, Json>, size1: int, size2: int, placeholder: string, parsers: Parsers)
    requires |placeholder| > 0
    ensures BuildSearchRequest(index, query, queryText, searchPipeline, size1, placeholder, parsers)
         == BuildSearchRequest(index, query, queryText, searchPipeline, size2, placeholder, parsers)
    ensures BuildRequestForHybridSearch(index, query, temporarySearchPipeline, queryText, size1, placeholder, parsers)
         == BuildRequestForHybridSearch(index, query, temporarySearchPipeline, queryText, size2, placeholder, parsers)
  {
  }

  /**
   * A query template without the placeholder is parsed as written, so the
   * query text has no effect on the request.
   */
  lemma TemplateWithoutPlaceholder(index: string, query: string, queryText1: string, queryText2: string,
                                   searchPipeline: Option<string>, size: int, placeholder: string, parsers: Parsers)
    requires |placeholder| > 0
    requires forall i :: !OccursAt(query, placeholder, i)
    ensures BuildSearchRequest(index, query, queryText1, searchPipeline, size, placeholder, parsers)
         == BuildSearchRequest(index, query, queryText2, searchPipeline, size, placeholder, parsers)
  {
    ReplaceAllNoOccurrence(query, placeholder, queryText1);
    ReplaceAllNoOccurrence(query, placeholder, queryText2);
  }

  /**
   * A placeholder at the start of the template is replaced by the query
   * text before parsing.
   */
  lemma LeadingPlaceholderReplaced(query: string, queryText: string, placeholder: string)
    requires |placeholder| > 0
    ensures ProcessedQuery(placeholder + query, queryText, placeholder) == queryText + ProcessedQuery(query, queryText, placeholder)
  {
    ReplaceAllLeading(placeholder, query, queryText);
  }
}
