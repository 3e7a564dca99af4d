/**
 * The delete transport actions for search configurations, query sets and
 * judgments. Each refuses a blank id, then asks which experiments use the
 * resource, refuses with CONFLICT if any do, and deletes otherwise.
 *
 * The two asynchronous steps are two decisions: `DoExecute` on the request,
 * and `OnExperiments` on the outcome of the usage lookup. The DAO calls
 * themselves are not modelled; their outcomes are inputs.
 */
module DeleteActions {
  import opened Common

  /** The resource an action deletes. */
  datatype ResourceKind = SearchConfigurationResource | QuerySetResource | JudgmentResource

  /** The experiment field a resource's id is looked up on. */
  datatype UsageField = SearchConfigurationList | QuerySetId | JudgmentList

  const LookupLimit: nat := 3
  const IdSeparator: string := ", "

  function UsageFieldOf(kind: ResourceKind): UsageField
  {
    match kind
    case SearchConfigurationResource => SearchConfigurationList
    case QuerySetResource => QuerySetId
    case JudgmentResource => JudgmentList
  }

  function BlankIdMessage(kind: ResourceKind): string
  {
    match kind
    case SearchConfigurationResource => "searchConfigurationId cannot be null or empty"
    case QuerySetResource => "Query set ID cannot be null or empty"
    case JudgmentResource => "judgmentId cannot be null or empty"
  }

  function ConflictPrefix(kind: ResourceKind): string
  {
    match kind
    case SearchConfigurationResource => "search configuration cannot be deleted as it is currently used by experiments with ids "
    case QuerySetResource => "query set cannot be deleted as it is currently used by experiments with ids "
    case JudgmentResource => "judgement cannot be deleted as it is currently used by experiments with ids "
  }

  /** `String.join(separator, parts)`. */
  function JoinStrings(parts: seq<string>, separator: string): string
  {
    if parts == [] then []
    else if |parts| == 1 then parts[0]
    else parts[0] + separator + JoinStrings(parts[1..], separator)
  }

  /** Where part `i` starts in `JoinStrings(parts, separator)`. */
  function PartOffset(parts: seq<string>, separator: string, i: nat): nat
    requires i < |parts|
  {
    if i == 0 then 0 else |parts[0]| + |separator| + PartOffset(parts[1..], separator, i - 1)
  }

  /** Every part appears in the joined string, in order, at its offset. */
  lemma {:induction false} JoinStringsListsParts(parts: seq<string>, separator: string, i: nat)
    requires i < |parts|
    ensures PartOffset(parts, separator, i) + |parts[i]| <= |JoinStrings(parts, separator)|
    ensures JoinStrings(parts, separator)[PartOffset(parts, separator, i)..PartOffset(parts, separator, i) + |parts[i]|] == parts[i]
  {
    var joined := JoinStrings(parts, separator);
    if i == 0 {
      if |parts| > 1 {
        assert joined == parts[0] + (separator + JoinStrings(parts[1..], separator));
      }
      assert joined[..|parts[0]|] == parts[0];
    } else {
      var tail := JoinStrings(parts[1..], separator);
      JoinStringsListsParts(parts[1..], separator, i - 1);
      assert joined == (parts[0] + separator) + tail;
      var k := |parts[0]| + |separator|;
      var o := PartOffset(parts[1..], separator, i - 1);
      assert joined[k..] == tail;
      assert joined[k + o..k + o + |parts[i]|] == joined[k..][o..o + |parts[i]|];
    }
  }

  /** The outcome of the usage lookup: the hits (total count and the ids returned). */
  datatype Experiments = Experiments(totalHits: nat, hitIds: seq<string>)

  /** What the first step does: refuse at once, or look the id up. */
  datatype Step =
    | Refuse(error: Throwable)
    | LookUp(id: string, field: UsageField, limit: nat)

  /** What the lookup callback does: refuse (or forward a failure), or delete the id. */
  datatype Decision =
    | Fail(error: Throwable)
    | Delete(id: string)

  function Refusal(message: string, status: RestStatus): Throwable
  {
    Throwable(SearchRelevanceException(status), message, None)
  }

  /** `doExecute` up to the lookup: a null or blank id is a BAD_REQUEST. */
  function DoExecute(kind: ResourceKind, id: Option<string>): (s: Step)
    ensures s.Refuse? <==> id.None? || IsBlank(id.value)
    ensures s.Refuse? ==> s.error == Refusal(BlankIdMessage(kind), BadRequest)
    ensures s.LookUp? ==> s == LookUp(id.value, UsageFieldOf(kind), LookupLimit)
  {
    TrimEmptyIffBlank(if id.Some? then id.value else "");
    if id.None? || Trim(id.value) == [] then Refuse(Refusal(BlankIdMessage(kind), BadRequest))
    else LookUp(id.value, UsageFieldOf(kind), LookupLimit)
  }

  /**
   * The lookup listener: a failed lookup is forwarded unchanged; a non-null
   * response with hits is a CONFLICT naming the ids of the hits; a null
   * response or zero hits deletes the id.
   */
  function OnExperiments(kind: ResourceKind, id: string, lookup: Result<Option<Experiments>>): (d: Decision)
    ensures lookup.Err? ==> d == Fail(lookup.error)
    ensures lookup.Ok? ==> (d.Delete? <==> lookup.value.None? || lookup.value.value.totalHits == 0)
    ensures d.Delete? ==> d.id == id
    ensures lookup.Ok? && d.Fail? ==>
      d.error == Refusal(ConflictPrefix(kind) + JoinStrings(lookup.value.value.hitIds, IdSeparator), Conflict)
  {
    match lookup
    case Err(e) => Fail(e)
    case Ok(None) => Delete(id)
    case Ok(Some(experiments)) =>
      if experiments.totalHits > 0 then
        Fail(Refusal(ConflictPrefix(kind) + JoinStrings(experiments.hitIds, IdSeparator), Conflict))
      else Delete(id)
  }

  /** A message made of a prefix and joined parts shows every part after the prefix, at its offset. */
  lemma {:induction false} PrefixedJoinListsParts(prefix: string, parts: seq<string>, separator: string, i: nat)
    requires i < |parts|
    ensures |prefix| + PartOffset(parts, separator, i) + |parts[i]| <= |prefix + JoinStrings(parts, separator)|
    ensures (prefix + JoinStrings(parts, separator))
              [|prefix| + PartOffset(parts, separator, i)..|prefix| + PartOffset(parts, separator, i) + |parts[i]|]
            == parts[i]
  {
    var joined := JoinStrings(parts, separator);
    var o := PartOffset(parts, separator, i);
    JoinStringsListsParts(parts, separator, i);
    assert (prefix + joined)[|prefix| + o..|prefix| + o + |parts[i]|] == joined[o..o + |parts[i]|];
  }

  /** The CONFLICT message names every experiment that uses the resource, in hit order. */
  lemma ConflictNamesEveryExperiment(kind: ResourceKind, id: string, experiments: Experiments, i: nat)
    requires experiments.totalHits > 0 && i < |experiments.hitIds|
    ensures OnExperiments(kind, id, Ok(Some(experiments))).error.message
            == ConflictPrefix(kind) + JoinStrings(experiments.hitIds, IdSeparator)
    ensures |ConflictPrefix(kind)| + PartOffset(experiments.hitIds, IdSeparator, i) + |experiments.hitIds[i]|
            <= |ConflictPrefix(kind) + JoinStrings(experiments.hitIds, IdSeparator)|
    ensures var at := |ConflictPrefix(kind)| + PartOffset(experiments.hitIds, IdSeparator, i);
      (ConflictPrefix(kind) + JoinStrings(experiments.hitIds, IdSeparator))[at..at + |experiments.hitIds[i]|]
      == experiments.hitIds[i]
  {
    PrefixedJoinListsParts(ConflictPrefix(kind), experiments.hitIds, IdSeparator, i);
  }

  /** A delete happens only after a lookup for a non-blank id found no experiment using it. */
  lemma DeleteOnlyWhenUnused(kind: ResourceKind, id: Option<string>, lookup: Result<Option<Experiments>>)
    requires DoExecute(kind, id).LookUp?
    requires OnExperiments(kind, DoExecute(kind, id).id, lookup).Delete?
    ensures id.Some? && !IsBlank(id.value)
    ensures lookup.Ok? && (lookup.value.None? || lookup.value.value.totalHits == 0)
    ensures OnExperiments(kind, DoExecute(kind, id).id, lookup) == Delete(id.value)
  {
  }
}
