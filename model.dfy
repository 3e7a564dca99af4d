/**
 * The stored entities `EvaluationResult`, `SearchConfiguration` and
 * `ExperimentVariant`, and the documents their `toXContent` methods write.
 * The accessors of the Java classes are the datatype fields here.
 */
module Model {
  import opened Common

  /** The events an `XContentBuilder` records for one object. */
  datatype XToken = StartObject | Field(name: string, value: Json) | EndObject

  /** An `XContentBuilder` that accumulates what is written to it. */
  class XContentBuilder {
    var tokens: seq<XToken>

    constructor ()
      ensures tokens == []
    {
      tokens := [];
    }

    method StartObject()
      modifies this
      ensures tokens == old(tokens) + [XToken.StartObject]
    {
      tokens := tokens + [XToken.StartObject];
    }

    method Field(name: string, value: Json)
      modifies this
      ensures tokens == old(tokens) + [XToken.Field(name, value)]
    {
      tokens := tokens + [XToken.Field(name, value)];
    }

    method EndObject()
      modifies this
      ensures tokens == old(tokens) + [XToken.EndObject]
    {
      tokens := tokens + [XToken.EndObject];
    }
  }

  /** The tokens of one object whose fields are `fields`, in order. */
  function ObjectTokens(fields: seq<(string, Json)>): seq<XToken>
  {
    [XToken.StartObject] + FieldTokens(fields) + [XToken.EndObject]
  }

  function FieldTokens(fields: seq<(string, Json)>): seq<XToken>
  {
    seq(|fields|, i requires 0 <= i < |fields| => XToken.Field(fields[i].0, fields[i].1))
  }

  /** Writes one object: its start, each field in order, its end. */
  method WriteObject(builder: XContentBuilder, fields: seq<(string, Json)>)
    modifies builder
    ensures builder.tokens == old(builder.tokens) + ObjectTokens(fields)
  {
    builder.StartObject();
    var k := 0;
    while k < |fields|
      invariant 0 <= k <= |fields|
      invariant builder.tokens == old(builder.tokens) + [XToken.StartObject] + FieldTokens(fields[..k])
    {
      assert FieldTokens(fields[..k + 1]) == FieldTokens(fields[..k]) + [XToken.Field(fields[k].0, fields[k].1)];
      builder.Field(fields[k].0, fields[k].1);
      k := k + 1;
    }
    assert fields[..k] == fields;
    builder.EndObject();
  }

  /** The keys of a document, in the order they are written. */
  function Keys(fields: seq<(string, Json)>): (r: seq<string>)
    ensures |r| == |fields| && forall i :: 0 <= i < |fields| ==> r[i] == fields[i].0
  {
    if fields == [] then [] else [fields[0].0] + Keys(fields[1..])
  }

  /** A `List<String>` as written by `XContentBuilder.field`. */
  function StringList(xs: seq<string>): (r: Json)
    ensures r.JList? && |r.items| == |xs|
    ensures forall i :: 0 <= i < |xs| ==> r.items[i] == JStr(xs[i])
  {
    JList(seq(|xs|, i requires 0 <= i < |xs| => JStr(xs[i])))
  }

  /** Reads back a `List<String>` written by `StringList`. */
  function ReadStringList(j: Json): Option<seq<string>>
  {
    if j.JList? && forall i :: 0 <= i < |j.items| ==> j.items[i].JStr?
    then Some(seq(|j.items|, i requires 0 <= i < |j.items| && j.items[i].JStr? => j.items[i].s))
    else None
  }

  lemma StringListRoundTrip(xs: seq<string>)
    ensures ReadStringList(StringList(xs)) == Some(xs)
  {
    var j := StringList(xs);
    assert seq(|j.items|, i requires 0 <= i < |j.items| && j.items[i].JStr? => j.items[i].s) == xs;
  }

  /** A `List<Map<String, Object>>` as written by `XContentBuilder.field`. */
  function ObjectList(ms: seq<map<string, Json>>): (r: Json)
    ensures r.JList? && |r.items| == |ms|
    ensures forall i :: 0 <= i < |ms| ==> r.items[i] == JObject(ms[i])
  {
    JList(seq(|ms|, i requires 0 <= i < |ms| => JObject(ms[i])))
  }

  /** `Enum.name()` of `ExperimentType`. */
  function TypeName(t: ExperimentType): string
  {
    match t
    case PairwiseComparison => "PAIRWISE_COMPARISON"
    case PointwiseEvaluation => "POINTWISE_EVALUATION"
    case HybridOptimizer => "HYBRID_OPTIMIZER"
  }

  /** `ExperimentType.valueOf`: the type with that name, if any. */
  function TypeOfName(name: string): Option<ExperimentType>
  {
    if name == "PAIRWISE_COMPARISON" then Some(PairwiseComparison)
    else if name == "POINTWISE_EVALUATION" then Some(PointwiseEvaluation)
    else if name == "HYBRID_OPTIMIZER" then Some(HybridOptimizer)
    else None
  }

  /** `Enum.name()` of `AsyncStatus`. */
  function StatusName(s: AsyncStatus): string
  {
    match s
    case Processing => "PROCESSING"
    case Completed => "COMPLETED"
    case Error => "ERROR"
  }

  /** `AsyncStatus.valueOf`: the status with that name, if any. */
  function StatusOfName(name: string): Option<AsyncStatus>
  {
    if name == "PROCESSING" then Some(Processing)
    else if name == "COMPLETED" then Some(Completed)
    else if name == "ERROR" then Some(Error)
    else None
  }

  /** A string with nothing for `trim()` to remove at either end. */
  predicate IsTrimmed(s: string)
  {
    s == [] || (!IsTrimmable(s[0]) && !IsTrimmable(s[|s| - 1]))
  }

  lemma TrimOfTrimmed(s: string)
    requires IsTrimmed(s)
    ensures Trim(s) == s
  {
    assert TrimStart(s) == s;
    assert TrimEnd(s) == s;
  }

  /** `trim()` always yields a trimmed string. */
  lemma TrimYieldsTrimmed(s: string)
    ensures IsTrimmed(Trim(s))
  {
    var t := TrimStart(s);
    var r := TrimEnd(t);
    TrimStartFacts(s);
    TrimEndFacts(t);
    if r != [] {
      assert r[0] == t[0];
    }
  }

  /** Enum names have no surrounding whitespace, so `.name().trim()` is the name. */
  lemma EnumNamesTrimmed(t: ExperimentType, s: AsyncStatus)
    ensures Trim(TypeName(t)) == TypeName(t)
    ensures Trim(StatusName(s)) == StatusName(s)
  {
    TrimOfTrimmed(TypeName(t));
    TrimOfTrimmed(StatusName(s));
  }

  // ---------------------------------------------------------------------
  // EvaluationResult
  // ---------------------------------------------------------------------

  /** `EvaluationResult`; a null list is `None`. */
  datatype EvaluationResult = EvaluationResult(
    id: string,
    timestamp: string,
    searchConfigurationId: string,
    searchText: string,
    judgmentIds: Option<seq<string>>,
    documentIds: Option<seq<string>>,
    metrics: seq<map<string, Json>>)
  {
    /** The document `toXContent` writes. */
    function Document(): seq<(string, Json)>
    {
      [ ("id", JStr(Trim(id))),
        ("timestamp", JStr(Trim(timestamp))),
        ("searchConfigurationId", JStr(Trim(searchConfigurationId))),
        ("searchText", JStr(Trim(searchText))),
        ("judgmentIds", StringList(if judgmentIds.None? then [] else judgmentIds.value)),
        ("documentIds", StringList(if documentIds.None? then [] else documentIds.value)),
        ("metrics", ObjectList(metrics)) ]
    }

    method ToXContent(builder: XContentBuilder)
      modifies builder
      ensures builder.tokens == old(builder.tokens) + ObjectTokens(Document())
    {
      WriteObject(builder, Document());
    }

    /** The record as it is once stored: strings trimmed, null lists empty. */
    function Stored(): EvaluationResult
    {
      EvaluationResult(Trim(id), Trim(timestamp), Trim(searchConfigurationId), Trim(searchText),
        Some(if judgmentIds.None? then [] else judgmentIds.value),
        Some(if documentIds.None? then [] else documentIds.value),
        metrics)
    }
  }

  /** Reads an `EvaluationResult` back from the document layout `toXContent` writes. */
  function ReadEvaluationResult(doc: seq<(string, Json)>): Option<EvaluationResult>
  {
    if |doc| == 7 && Keys(doc) == ["id", "timestamp", "searchConfigurationId", "searchText", "judgmentIds", "documentIds", "metrics"]
      && doc[0].1.JStr? && doc[1].1.JStr? && doc[2].1.JStr? && doc[3].1.JStr?
      && ReadStringList(doc[4].1).Some? && ReadStringList(doc[5].1).Some?
      && doc[6].1.JList? && (forall i :: 0 <= i < |doc[6].1.items| ==> doc[6].1.items[i].JObject?)
    then
      var ms := doc[6].1.items;
      Some(EvaluationResult(doc[0].1.s, doc[1].1.s, doc[2].1.s, doc[3].1.s,
        ReadStringList(doc[4].1), ReadStringList(doc[5].1),
        seq(|ms|, i requires 0 <= i < |ms| && ms[i].JObject? => ms[i].fields)))
    else None
  }

  /**
   * The keys come out in the order id, timestamp, searchConfigurationId,
   * searchText, judgmentIds, documentIds, metrics, and reading the document
   * back gives the record with its strings trimmed and null lists empty.
   */
  lemma EvaluationResultDocument(e: EvaluationResult)
    ensures Keys(e.Document()) == ["id", "timestamp", "searchConfigurationId", "searchText", "judgmentIds", "documentIds", "metrics"]
    ensures ReadEvaluationResult(e.Document()) == Some(e.Stored())
  {
    EvaluationResultKeys(e);
    var doc := e.Document();
    StringListRoundTrip(if e.judgmentIds.None? then [] else e.judgmentIds.value);
    StringListRoundTrip(if e.documentIds.None? then [] else e.documentIds.value);
    var ms := doc[6].1.items;
    assert seq(|ms|, i requires 0 <= i < |ms| && ms[i].JObject? => ms[i].fields) == e.metrics;
  }

  lemma EvaluationResultKeys(e: EvaluationResult)
    ensures Keys(e.Document()) == ["id", "timestamp", "searchConfigurationId", "searchText", "judgmentIds", "documentIds", "metrics"]
  {
  }

  /** A stored record is unchanged by storing it again. */
  lemma EvaluationResultStoredIdempotent(e: EvaluationResult)
    ensures e.Stored().Stored() == e.Stored()
  {
    TrimIdempotent(e.id);
    TrimIdempotent(e.timestamp);
    TrimIdempotent(e.searchConfigurationId);
    TrimIdempotent(e.searchText);
  }

  // ---------------------------------------------------------------------
  // SearchConfiguration
  // ---------------------------------------------------------------------

  /** `SearchConfiguration`; a null search pipeline is `None`. */
  datatype SearchConfiguration = SearchConfiguration(
    id: string,
    name: string,
    timestamp: string,
    index: string,
    query: string,
    searchPipeline: Option<string>)
  {
    /** The document `toXContent` writes: the id untrimmed, a null pipeline as "". */
    function Document(): seq<(string, Json)>
    {
      [ ("id", JStr(id)),
        ("name", JStr(Trim(name))),
        ("timestamp", JStr(Trim(timestamp))),
        ("index", JStr(Trim(index))),
        ("query", JStr(Trim(query))),
        ("searchPipeline", JStr(if searchPipeline.None? then "" else Trim(searchPipeline.value))) ]
    }

    method ToXContent(builder: XContentBuilder)
      modifies builder
      ensures builder.tokens == old(builder.tokens) + ObjectTokens(Document())
    {
      WriteObject(builder, Document());
    }

    /** The configuration as it is once stored: strings but the id trimmed, a null pipeline "". */
    function Stored(): SearchConfiguration
    {
      SearchConfiguration(id, Trim(name), Trim(timestamp), Trim(index), Trim(query),
        Some(if searchPipeline.None? then "" else Trim(searchPipeline.value)))
    }
  }

  /** Reads a `SearchConfiguration` back from the document layout `toXContent` writes. */
  function ReadSearchConfiguration(doc: seq<(string, Json)>): Option<SearchConfiguration>
  {
    if |doc| == 6 && Keys(doc) == ["id", "name", "timestamp", "index", "query", "searchPipeline"]
      && forall i :: 0 <= i < 6 ==> doc[i].1.JStr?
    then Some(SearchConfiguration(doc[0].1.s, doc[1].1.s, doc[2].1.s, doc[3].1.s, doc[4].1.s, Some(doc[5].1.s)))
    else None
  }

  /**
   * Keys in the order id, name, timestamp, index, query, searchPipeline; the
   * id is written as given, the other strings trimmed, and a missing
   * pipeline as the empty string (so it cannot be told apart from a blank one).
   * Reading the document back gives the stored configuration.
   */
  lemma SearchConfigurationDocument(c: SearchConfiguration)
    ensures Keys(c.Document()) == ["id", "name", "timestamp", "index", "query", "searchPipeline"]
    ensures ReadSearchConfiguration(c.Document()) == Some(c.Stored())
    ensures c.Document()[0].1 == JStr(c.id)
    ensures forall i :: 1 <= i < 6 ==> c.Document()[i].1.JStr? && IsTrimmed(c.Document()[i].1.s)
    ensures c.searchPipeline.None? ==> c.Document()[5].1 == JStr("")
    ensures c.searchPipeline.Some? && IsBlank(c.searchPipeline.value) ==> c.Document()[5].1 == JStr("")
  {
    TrimYieldsTrimmed(c.name);
    TrimYieldsTrimmed(c.timestamp);
    TrimYieldsTrimmed(c.index);
    TrimYieldsTrimmed(c.query);
    if c.searchPipeline.Some? {
      TrimYieldsTrimmed(c.searchPipeline.value);
      TrimEmptyIffBlank(c.searchPipeline.value);
    }
  }

  // ---------------------------------------------------------------------
  // ExperimentVariant
  // ---------------------------------------------------------------------

  /** `ExperimentVariant`. */
  datatype ExperimentVariant = ExperimentVariant(
    id: string,
    timestamp: string,
    variantType: ExperimentType,
    status: AsyncStatus,
    experimentId: string,
    parameters: map<string, Json>,
    results: map<string, Json>)
  {
    /**
     * The document `toXContent` writes. Type and status are written as
     * `name().trim()`, which is the name itself (`EnumNamesTrimmed`).
     */
    function Document(): seq<(string, Json)>
    {
      [ ("id", JStr(Trim(id))),
        ("timestamp", JStr(Trim(timestamp))),
        ("type", JStr(TypeName(variantType))),
        ("status", JStr(StatusName(status))),
        ("experimentId", JStr(Trim(experimentId))),
        ("parameters", JObject(parameters)),
        ("results", JObject(results)) ]
    }

    method ToXContent(builder: XContentBuilder)
      modifies builder
      ensures builder.tokens == old(builder.tokens) + ObjectTokens(Document())
    {
      WriteObject(builder, Document());
    }

    /** The variant as it is once stored: id, timestamp and experiment id trimmed. */
    function Stored(): ExperimentVariant
    {
      ExperimentVariant(Trim(id), Trim(timestamp), variantType, status, Trim(experimentId), parameters, results)
    }
  }

  /** Reads an `ExperimentVariant` back from the document layout `toXContent` writes. */
  function ReadExperimentVariant(doc: seq<(string, Json)>): Option<ExperimentVariant>
  {
    if |doc| == 7 && Keys(doc) == ["id", "timestamp", "type", "status", "experimentId", "parameters", "results"]
      && doc[0].1.JStr? && doc[1].1.JStr? && doc[2].1.JStr? && doc[3].1.JStr? && doc[4].1.JStr?
      && doc[5].1.JObject? && doc[6].1.JObject?
      && TypeOfName(doc[2].1.s).Some? && StatusOfName(doc[3].1.s).Some?
    then Some(ExperimentVariant(doc[0].1.s, doc[1].1.s, TypeOfName(doc[2].1.s).value, StatusOfName(doc[3].1.s).value,
      doc[4].1.s, doc[5].1.fields, doc[6].1.fields))
    else None
  }

  /**
   * Keys in the order id, timestamp, type, status, experimentId, parameters,
   * results; type and status are their enum names; parameters and results
   * are written unchanged. Reading the document back gives the stored variant.
   */
  lemma ExperimentVariantDocument(v: ExperimentVariant)
    ensures Keys(v.Document()) == ["id", "timestamp", "type", "status", "experimentId", "parameters", "results"]
    ensures ReadExperimentVariant(v.Document()) == Some(v.Stored())
    ensures v.Document()[2].1 == JStr(TypeName(v.variantType))
    ensures v.Document()[3].1 == JStr(StatusName(v.status))
    ensures v.Document()[5].1 == JObject(v.parameters) && v.Document()[6].1 == JObject(v.results)
    ensures IsTrimmed(v.Document()[0].1.s) && IsTrimmed(v.Document()[1].1.s) && IsTrimmed(v.Document()[4].1.s)
  {
    ExperimentVariantKeys(v);
    TrimYieldsTrimmed(v.id);
    TrimYieldsTrimmed(v.timestamp);
    TrimYieldsTrimmed(v.experimentId);
  }

  lemma ExperimentVariantKeys(v: ExperimentVariant)
    ensures Keys(v.Document()) == ["id", "timestamp", "type", "status", "experimentId", "parameters", "results"]
  {
  }
}
