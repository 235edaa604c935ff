/** Which request a frame is for: decoding never invents an id. */
module DecodeLaws {
  import opened Wrappers
  import opened Json
  import opened Protocol
  import opened Decode

  /** `id` is the string the object holds under "id". */
  predicate CarriesId(m: Fields, id: string) {
    Get(m, "id") == Some(Str(id))
  }

  lemma QueryKeepsId(m: Fields)
    ensures DecodeQuery(m).Ok? ==> CarriesId(m, DecodeQuery(m).value.id)
  {
  }

  lemma RecordsKeepId(m: Fields)
    ensures DecodeErrorBody(m).Ok? ==> CarriesId(m, DecodeErrorBody(m).value.id)
    ensures DecodePrepared(m).Ok? ==> CarriesId(m, ResponseId(DecodePrepared(m).value))
    ensures DecodeDove(m).Ok? ==> CarriesId(m, ResponseId(DecodeDove(m).value))
    ensures DecodeConnected(m).Ok? ==> CarriesId(m, ResponseId(DecodeConnected(m).value))
    ensures DecodeClResult(m).Ok? ==> CarriesId(m, ResponseId(DecodeClResult(m).value))
    ensures DecodeTraceData(m).Ok? ==> CarriesId(m, ResponseId(DecodeTraceData(m).value))
  {
  }

  lemma AcksKeepId(m: Fields, k: string)
    ensures DecodeAck(m).Ok? ==> CarriesId(m, DecodeAck(m).value.0)
    ensures DecodeTextBody(m, k).Ok? ==> CarriesId(m, DecodeTextBody(m, k).value.0)
    ensures Required(m, "id", AsString).Ok? ==> CarriesId(m, Required(m, "id", AsString).value)
  {
  }

  lemma TaggedKeepsId(tag: string, m: Fields)
    ensures DecodeTagged(tag, m).Ok? ==> CarriesId(m, ResponseId(DecodeTagged(tag, m).value))
  {
    match tag
    case "query_result" => QueryKeepsId(m);
    case "version" => AcksKeepId(m, "version");
    case "db_job" => AcksKeepId(m, "job");
    case "pong" => AcksKeepId(m, "");
    case "exited" => AcksKeepId(m, "");
    case "sql_closed" => AcksKeepId(m, "");
    case "config_set" => AcksKeepId(m, "");
    case _ => RecordsKeepId(m);
  }

  /** The untagged shapes whose id falls back to the empty string instead of failing. */
  predicate Coerces(m: Fields) {
    && "type" !in m
    && Get(m, "success") != Some(Bool(false))
    && "cont_id" !in m && !LooksLikeResult(m) && !HasDove(m)
    && ("job" in m || "version" in m || "tracedata" in m || "jtopentracedata" in m ||
      Get(m, "success") == Some(Bool(true)))
  }

  lemma UntaggedKeepsId(m: Fields)
    requires "type" !in m
    ensures DecodeUntagged(m).Ok? && !Coerces(m) ==> CarriesId(m, ResponseId(DecodeUntagged(m).value))
    ensures Coerces(m) ==> DecodeUntagged(m).Ok? && ResponseId(DecodeUntagged(m).value) == StringOrEmpty(m, "id")
  {
    QueryKeepsId(m);
    RecordsKeepId(m);
  }

  /**
    A frame with a string id decodes, if at all, to a response with that id. A
    frame without one decodes exactly when it has a coercing shape, and then
    its id is empty.
   */
  lemma DecodeKeepsId(v: Json)
    ensures HasId(v) && DecodeValue(v).Ok? ==> ResponseId(DecodeValue(v).value) == IdOf(v)
    ensures !HasId(v) ==> (DecodeValue(v).Ok? <==> v.Obj? && Coerces(v.fields))
    ensures !HasId(v) && DecodeValue(v).Ok? ==> ResponseId(DecodeValue(v).value) == ""
  {
    if v.Obj? {
      var m := v.fields;
      if "type" in m {
        if m["type"].Str? {
          TaggedKeepsId(m["type"].s, m - {"type"});
        }
      } else {
        UntaggedKeepsId(m);
      }
    }
  }
}
