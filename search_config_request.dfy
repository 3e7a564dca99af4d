/**
 * `PutSearchConfigurationRequest`: the request that creates a search
 * configuration, and its transport serialisation. The request writes its
 * three strings and then the optional search pipeline (a presence flag,
 * then the string when present); reading it back consumes the same items
 * in the same order.
 *
 * The transport stream is modelled one level above bytes: an item is a
 * whole string or a whole boolean.
 */
module SearchConfigRequest {
  import opened Common

  /** One value written to a transport stream. */
  datatype StreamItem = StringItem(s: string) | BoolItem(b: bool)

  /** The request: name, index, query body and an optional (nullable) search pipeline. */
  datatype PutSearchConfigurationRequest = PutSearchConfigurationRequest(
    name: string,
    index: string,
    queryBody: string,
    searchPipeline: Option<string>)

  /** `writeOptionalString`: a presence flag, then the string when present. */
  function OptionalStringItems(value: Option<string>): seq<StreamItem>
  {
    if value.Some? then [BoolItem(true), StringItem(value.value)] else [BoolItem(false)]
  }

  /** The items `writeTo` appends, in order. */
  function Encode(request: PutSearchConfigurationRequest): (items: seq<StreamItem>)
    ensures |items| == 4 || |items| == 5
    ensures items[..3] == [StringItem(request.name), StringItem(request.index), StringItem(request.queryBody)]
  {
    [StringItem(request.name), StringItem(request.index), StringItem(request.queryBody)]
      + OptionalStringItems(request.searchPipeline)
  }

  /** `readString` at `at`: the string and the next position, or an `IOException` at a wrong item or the end. */
  function ReadStringAt(items: seq<StreamItem>, at: nat): (r: Result<(string, nat)>)
    ensures r.Ok? <==> at < |items| && items[at].StringItem?
    ensures r.Ok? ==> r.value == (items[at].s, at + 1)
    ensures r.Err? ==> r.error.kind.IOException?
  {
    if at < |items| && items[at].StringItem? then Ok((items[at].s, at + 1))
    else Err(Throwable(IOException, "", None))
  }

  /** `readBoolean` at `at`. */
  function ReadBoolAt(items: seq<StreamItem>, at: nat): (r: Result<(bool, nat)>)
    ensures r.Ok? <==> at < |items| && items[at].BoolItem?
    ensures r.Ok? ==> r.value == (items[at].b, at + 1)
    ensures r.Err? ==> r.error.kind.IOException?
  {
    if at < |items| && items[at].BoolItem? then Ok((items[at].b, at + 1))
    else Err(Throwable(IOException, "", None))
  }

  /** `readOptionalString` at `at`. */
  function ReadOptionalStringAt(items: seq<StreamItem>, at: nat): (r: Result<(Option<string>, nat)>)
    ensures r.Ok? ==> at < r.value.1 <= at + 2 && r.value.1 <= |items|
    ensures r.Err? ==> r.error.kind.IOException?
  {
    match ReadBoolAt(items, at)
    case Err(e) => Err(e)
    case Ok((present, next)) =>
      if !present then Ok((None, next))
      else
        match ReadStringAt(items, next)
        case Err(e) => Err(e)
        case Ok((value, last)) => Ok((Some(value), last))
  }

  /** The stream constructor: the request read at `at`, and the position after it. */
  function Decode(items: seq<StreamItem>, at: nat): (r: Result<(PutSearchConfigurationRequest, nat)>)
    ensures r.Ok? ==> at + 4 <= r.value.1 <= at + 5 && r.value.1 <= |items|
    ensures r.Err? ==> r.error.kind.IOException?
  {
    match ReadStringAt(items, at)
    case Err(e) => Err(e)
    case Ok((name, p1)) =>
      match ReadStringAt(items, p1)
      case Err(e) => Err(e)
      case Ok((index, p2)) =>
        match ReadStringAt(items, p2)
        case Err(e) => Err(e)
        case Ok((queryBody, p3)) =>
          match ReadOptionalStringAt(items, p3)
          case Err(e) => Err(e)
          case Ok((searchPipeline, p4)) => Ok((PutSearchConfigurationRequest(name, index, queryBody, searchPipeline), p4))
  }

  /**
   * Reading back what `writeTo` wrote gives the same request, null pipeline
   * included, and stops exactly at the end of it, whatever was written
   * before or after.
   */
  lemma DecodeEncode(request: PutSearchConfigurationRequest, before: seq<StreamItem>, after: seq<StreamItem>)
    ensures Decode(before + Encode(request) + after, |before|) == Ok((request, |before| + |Encode(request)|))
  {
    var items := before + Encode(request) + after;
    var encoded := Encode(request);
    assert forall k :: 0 <= k < |encoded| ==> items[|before| + k] == encoded[k];
    if request.searchPipeline.Some? {
      assert items[|before| + 3] == BoolItem(true);
      assert items[|before| + 4] == StringItem(request.searchPipeline.value);
    } else {
      assert items[|before| + 3] == BoolItem(false);
    }
  }

  /** Two requests that serialise alike are the same request. */
  lemma EncodeInjective(r1: PutSearchConfigurationRequest, r2: PutSearchConfigurationRequest)
    requires Encode(r1) == Encode(r2)
    ensures r1 == r2
  {
    DecodeEncode(r1, [], []);
    DecodeEncode(r2, [], []);
    assert [] + Encode(r1) + [] == Encode(r1);
    assert [] + Encode(r2) + [] == Encode(r2);
  }

  /** `validate`: there is nothing to validate; every request passes. */
  function Validate(request: PutSearchConfigurationRequest): (error: Option<Throwable>)
    ensures error.None?
  {
    None
  }

  /** The output stream `writeTo` appends to. */
  class StreamOutput {
    var items: seq<StreamItem>

    constructor ()
      ensures items == []
    {
      items := [];
    }

    method WriteString(s: string)
      modifies this
      ensures items == old(items) + [StringItem(s)]
    {
      items := items + [StringItem(s)];
    }

    method WriteBoolean(b: bool)
      modifies this
      ensures items == old(items) + [BoolItem(b)]
    {
      items := items + [BoolItem(b)];
    }

    method WriteOptionalString(value: Option<string>)
      modifies this
      ensures items == old(items) + OptionalStringItems(value)
    {
      if value.Some? {
        WriteBoolean(true);
        WriteString(value.value);
      } else {
        WriteBoolean(false);
      }
    }
  }

  /** The input stream the stream constructor reads from: fixed items and a read position. */
  class StreamInput {
    const items: seq<StreamItem>
    var position: nat

    constructor (items: seq<StreamItem>)
      ensures this.items == items && position == 0
    {
      this.items := items;
      position := 0;
    }

    method ReadString() returns (r: Result<string>)
      modifies this
      ensures ReadStringAt(items, old(position)).Ok? ==> r == Ok(ReadStringAt(items, old(position)).value.0)
      ensures ReadStringAt(items, old(position)).Ok? ==> position == ReadStringAt(items, old(position)).value.1
      ensures ReadStringAt(items, old(position)).Err? ==> r == Err(ReadStringAt(items, old(position)).error)
      ensures ReadStringAt(items, old(position)).Err? ==> position == old(position)
    {
      if position < |items| && items[position].StringItem? {
        r := Ok(items[position].s);
        position := position + 1;
      } else {
        r := Err(Throwable(IOException, "", None));
      }
    }

    method ReadBoolean() returns (r: Result<bool>)
      modifies this
      ensures ReadBoolAt(items, old(position)).Ok? ==> r == Ok(ReadBoolAt(items, old(position)).value.0)
      ensures ReadBoolAt(items, old(position)).Ok? ==> position == ReadBoolAt(items, old(position)).value.1
      ensures ReadBoolAt(items, old(position)).Err? ==> r == Err(ReadBoolAt(items, old(position)).error)
      ensures ReadBoolAt(items, old(position)).Err? ==> position == old(position)
    {
      if position < |items| && items[position].BoolItem? {
        r := Ok(items[position].b);
        position := position + 1;
      } else {
        r := Err(Throwable(IOException, "", None));
      }
    }

    method ReadOptionalString() returns (r: Result<Option<string>>)
      modifies this
      ensures ReadOptionalStringAt(items, old(position)).Ok? ==> r == Ok(ReadOptionalStringAt(items, old(position)).value.0)
      ensures ReadOptionalStringAt(items, old(position)).Ok? ==> position == ReadOptionalStringAt(items, old(position)).value.1
      ensures ReadOptionalStringAt(items, old(position)).Err? ==> r == Err(ReadOptionalStringAt(items, old(position)).error)
      ensures ReadOptionalStringAt(items, old(position)).Err? ==>
        position == if ReadBoolAt(items, old(position)).Ok? then old(position) + 1 else old(position)
    {
      var present := ReadBoolean();
      if present.Err? {
        return Err(present.error);
      }
      if !present.value {
        return Ok(None);
      }
      var value := ReadString();
      if value.Err? {
        return Err(value.error);
      }
      r := Ok(Some(value.value));
    }
  }

  /** `writeTo`: appends the request's items to the stream. */
  method WriteTo(request: PutSearchConfigurationRequest, out: StreamOutput)
    modifies out
    ensures out.items == old(out.items) + Encode(request)
  {
    out.WriteString(request.name);
    out.WriteString(request.index);
    out.WriteString(request.queryBody);
    out.WriteOptionalString(request.searchPipeline);
  }

  /** The stream constructor: reads a request at the stream's position, failing as `Decode` does. */
  method ReadFrom(input: StreamInput) returns (r: Result<PutSearchConfigurationRequest>)
    modifies input
    ensures Decode(input.items, old(input.position)).Ok? ==> r == Ok(Decode(input.items, old(input.position)).value.0)
    ensures Decode(input.items, old(input.position)).Ok? ==> input.position == Decode(input.items, old(input.position)).value.1
    ensures Decode(input.items, old(input.position)).Err? ==> r.Err? && r.error.kind.IOException?
  {
    var name := input.ReadString();
    if name.Err? {
      return Err(name.error);
    }
    var index := input.ReadString();
    if index.Err? {
      return Err(index.error);
    }
    var queryBody := input.ReadString();
    if queryBody.Err? {
      return Err(queryBody.error);
    }
    var searchPipeline := input.ReadOptionalString();
    if searchPipeline.Err? {
      return Err(searchPipeline.error);
    }
    r := Ok(PutSearchConfigurationRequest(name.value, index.value, queryBody.value, searchPipeline.value));
  }
}
