/**
 * The request body the driver accepts, its validation, the registry of
 * format handlers, the chunk specs the parquet handler produces and the
 * payloads the lambdas hand to one another.
 */
module Requests {

  datatype Option<T> = None | Some(value: T)

  /** One entry of `inputs`: where an input matrix lives. */
  datatype Input = Input(bucket: string, prefix: string)

  /**
   * The request body, restricted to the three keys the driver looks at;
   * `None` stands for a key that is absent from the body.
   */
  datatype Body = Body(
    format: Option<string>,
    inputs: Option<seq<Input>>,
    filterString: Option<string>)

  /** The keys the driver requires, in the order it checks and reports them. */
  const RequiredKeys: seq<string> := ["format", "inputs", "filter_string"]

  predicate HasKey(body: Body, k: string)
  {
    || (k == "format" && body.format.Some?)
    || (k == "inputs" && body.inputs.Some?)
    || (k == "filter_string" && body.filterString.Some?)
  }

  predicate Complete(body: Body)
  {
    body.format.Some? && body.inputs.Some? && body.filterString.Some?
  }

  /** `s` is `t` with some elements dropped and the rest kept in order. */
  predicate IsSubsequence(s: seq<string>, t: seq<string>)
    decreases |t|
  {
    if t == [] then s == []
    else
      || (s != [] && s[0] == t[0] && IsSubsequence(s[1..], t[1..]))
      || IsSubsequence(s, t[1..])
  }

  /**
   * The list comprehension `[k for k in keys if k not in body]`: exactly the
   * absent keys, in the order of `keys`.
   */
  function MissingFrom(keys: seq<string>, body: Body): (r: seq<string>)
    ensures forall k :: k in r <==> k in keys && !HasKey(body, k)
    ensures IsSubsequence(r, keys)
  {
    if keys == [] then []
    else
      var rest := MissingFrom(keys[1..], body);
      if HasKey(body, keys[0]) then rest
      else
        assert ([keys[0]] + rest)[1..] == rest;
        [keys[0]] + rest
  }

  /** The missing keys the driver reports. */
  function MissingKeys(body: Body): seq<string>
  {
    MissingFrom(RequiredKeys, body)
  }

  lemma MissingKeysReported(body: Body)
    ensures MissingKeys(body) == [] <==> Complete(body)
    ensures "format" in MissingKeys(body) <==> body.format.None?
    ensures "inputs" in MissingKeys(body) <==> body.inputs.None?
    ensures "filter_string" in MissingKeys(body) <==> body.filterString.None?
    ensures IsSubsequence(MissingKeys(body), RequiredKeys)
  {
    var m := MissingKeys(body);
    if m != [] {
      assert m[0] in m;
    }
    if body.format.None? {
      assert "format" in RequiredKeys;
    }
    if body.inputs.None? {
      assert "inputs" in RequiredKeys;
    }
    if body.filterString.None? {
      assert "filter_string" in RequiredKeys;
    }
  }

  /** The one format the registry knows. */
  datatype Handler = ParquetSimple

  /** `FORMAT_HANDLERS`: format name to the handler's mapper, work and reducer. */
  const FormatHandlers: map<string, Handler> := map["parquet_simple" := ParquetSimple]

  /** `FORMAT_HANDLERS[format]`, with `None` for the `KeyError`. */
  function HandlerFor(format: string): (h: Option<Handler>)
    ensures h.Some? <==> format == "parquet_simple"
    ensures h.Some? ==> h.value == ParquetSimple
  {
    if format in FormatHandlers then Some(FormatHandlers[format]) else None
  }

  /** One unit of filterable data: a row group of one parquet file. */
  datatype ChunkSpec = RowGroup(bucket: string, prefix: string, rowGroup: nat)

  /**
   * `parquet_simple_mapper`'s result for a file with `numRowGroups` row
   * groups: one spec per row group, in order, naming the input unchanged.
   */
  function RowGroupSpecs(bucket: string, prefix: string, numRowGroups: nat): (specs: seq<ChunkSpec>)
    ensures |specs| == numRowGroups
    ensures forall i :: 0 <= i < |specs| ==> specs[i] == RowGroup(bucket, prefix, i)
  {
    if numRowGroups == 0 then []
    else RowGroupSpecs(bucket, prefix, numRowGroups - 1) + [RowGroup(bucket, prefix, numRowGroups - 1)]
  }

  /**
   * The handler's mapper. The number of row groups is read from the file's
   * metadata in the source; here it is a parameter.
   */
  function Partition(h: Handler, bucket: string, prefix: string, numRowGroups: nat): seq<ChunkSpec>
  {
    match h
    case ParquetSimple => RowGroupSpecs(bucket, prefix, numRowGroups)
  }

  /** The three lambdas an invocation can target. */
  datatype Stage = MapStage | WorkStage | ReduceStage

  /** The event payload of an asynchronous invocation. */
  datatype Payload =
    | MapperPayload(requestId: string, bucket: string, prefix: string, format: string, filterString: string)
    | WorkPayload(requestId: string, format: string, filterString: string, spec: ChunkSpec)
    | ReducerPayload(requestId: string, format: string)
  {
    /** The lambda the payload is sent to. */
    function Target(): Stage
    {
      match this
      case MapperPayload(_, _, _, _, _) => MapStage
      case WorkPayload(_, _, _, _) => WorkStage
      case ReducerPayload(_, _) => ReduceStage
    }
  }

  /** The driver's mapper payloads: one per input, in input order. */
  function MapperPayloads(requestId: string, format: string, filterString: string, inputs: seq<Input>): (ps: seq<Payload>)
    ensures |ps| == |inputs|
    ensures forall i :: 0 <= i < |inputs| ==>
      ps[i] == MapperPayload(requestId, inputs[i].bucket, inputs[i].prefix, format, filterString)
  {
    if inputs == [] then []
    else
      var last := inputs[|inputs| - 1];
      MapperPayloads(requestId, format, filterString, inputs[..|inputs| - 1])
        + [MapperPayload(requestId, last.bucket, last.prefix, format, filterString)]
  }

  /** A mapper's work payloads: one per chunk spec, in spec order. */
  function WorkPayloads(requestId: string, format: string, filterString: string, specs: seq<ChunkSpec>): (ps: seq<Payload>)
    ensures |ps| == |specs|
    ensures forall i :: 0 <= i < |specs| ==> ps[i] == WorkPayload(requestId, format, filterString, specs[i])
  {
    if specs == [] then []
    else
      WorkPayloads(requestId, format, filterString, specs[..|specs| - 1])
        + [WorkPayload(requestId, format, filterString, specs[|specs| - 1])]
  }

  /** The message carried in a response body. */
  datatype ResponseBody =
    | MissingKeysMsg(missing: seq<string>)
    | FormatNotRecognized(format: string)
    | RequestAccepted(requestId: string)

  datatype Response = Response(statusCode: string, body: ResponseBody)

  /** The outcome of the driver's two checks. */
  datatype Intake =
    | Rejected(response: Response)
    | Accepted(format: string, inputs: seq<Input>, filterString: string)

  /** The driver's validation: the key check first, then the format check. */
  function Validate(body: Body): (v: Intake)
    ensures !Complete(body) ==> v == Rejected(Response("400", MissingKeysMsg(MissingKeys(body))))
    ensures Complete(body) && body.format.value !in FormatHandlers ==>
      v == Rejected(Response("400", FormatNotRecognized(body.format.value)))
    ensures v.Accepted? <==> Complete(body) && body.format.value in FormatHandlers
    ensures v.Accepted? ==>
      v.format == body.format.value && v.inputs == body.inputs.value && v.filterString == body.filterString.value
  {
    MissingKeysReported(body);
    var missing := MissingKeys(body);
    if missing != [] then Rejected(Response("400", MissingKeysMsg(missing)))
    else if body.format.value !in FormatHandlers then Rejected(Response("400", FormatNotRecognized(body.format.value)))
    else Accepted(body.format.value, body.inputs.value, body.filterString.value)
  }
}
