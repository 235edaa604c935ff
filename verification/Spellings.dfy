/** Different spellings of one frame: what a reader makes of each is the same. */
module Spellings {
  import opened Wrappers
  import opened Json
  import opened Protocol
  import opened Decode
  import opened Encode

  // ---- two names for one field ----------------------------------------------

  /** Which fields are spelled by their second name: `sql_rc` for `sqlcode`, `sql_state` for `sqlstate`. */
  datatype Names = Names(sqlRc: bool, sqlState: bool)

  function Moved(m: Fields, from: string, to: string): Fields {
    if from in m then (m - {from})[to := m[from]] else m
  }

  function Respelled(m: Fields, names: Names): Fields {
    var n := if names.sqlRc then Moved(m, "sqlcode", "sql_rc") else m;
    if names.sqlState then Moved(n, "sqlstate", "sql_state") else n
  }

  const SPELLED_TWICE := {"sqlcode", "sql_rc", "sqlstate", "sql_state"}

  /** The two differ at most in the fields with two names. */
  ghost predicate Alike(m: Fields, n: Fields) {
    forall k :: k !in SPELLED_TWICE ==> Get(m, k) == Get(n, k)
  }

  lemma RespelledAlike(m: Fields, names: Names)
    ensures Alike(Respelled(m, names), m)
  {
  }

  lemma MovedReads<T>(m: Fields, k: string, second: string, read: Json -> Result<T, DecodeError>)
    requires second !in m && k != second
    ensures Aliased(Moved(m, k, second), k, second, read) == Aliased(m, k, second, read)
  {
  }

  lemma SameReads<T>(m: Fields, n: Fields, k: string, second: string, read: Json -> Result<T, DecodeError>)
    requires Get(m, k) == Get(n, k) && Get(m, second) == Get(n, second)
    ensures Aliased(m, k, second, read) == Aliased(n, k, second, read)
  {
  }

  lemma CodeReads(m: Fields, names: Names)
    requires "sql_rc" !in m && "sql_state" !in m
    ensures Aliased(Respelled(m, names), "sqlcode", "sql_rc", AsI32) == Aliased(m, "sqlcode", "sql_rc", AsI32)
  {
    var n := if names.sqlRc then Moved(m, "sqlcode", "sql_rc") else m;
    MovedReads(m, "sqlcode", "sql_rc", AsI32);
    SameReads(Respelled(m, names), n, "sqlcode", "sql_rc", AsI32);
  }

  lemma StateReads(m: Fields, names: Names)
    requires "sql_rc" !in m && "sql_state" !in m
    ensures Aliased(Respelled(m, names), "sqlstate", "sql_state", AsString) ==
      Aliased(m, "sqlstate", "sql_state", AsString)
  {
    var n := if names.sqlRc then Moved(m, "sqlcode", "sql_rc") else m;
    MovedReads(n, "sqlstate", "sql_state", AsString);
    SameReads(n, m, "sqlstate", "sql_state", AsString);
  }

  lemma ErrorAlike(m: Fields, n: Fields)
    requires Alike(m, n)
    requires Aliased(m, "sqlcode", "sql_rc", AsI32) == Aliased(n, "sqlcode", "sql_rc", AsI32)
    requires Aliased(m, "sqlstate", "sql_state", AsString) == Aliased(n, "sqlstate", "sql_state", AsString)
    ensures DecodeErrorBody(m) == DecodeErrorBody(n)
  {
    assert Get(m, "id") == Get(n, "id") && Get(m, "success") == Get(n, "success");
    assert Get(m, "error") == Get(n, "error") && Get(m, "job") == Get(n, "job");
  }

  lemma StatusAlike(m: Fields, n: Fields)
    requires Alike(m, n)
    requires Aliased(m, "sqlcode", "sql_rc", AsI32) == Aliased(n, "sqlcode", "sql_rc", AsI32)
    requires Aliased(m, "sqlstate", "sql_state", AsString) == Aliased(n, "sqlstate", "sql_state", AsString)
    ensures ReadStatus(m) == ReadStatus(n)
  {
    assert Get(m, "error") == Get(n, "error") && Get(m, "parameter_count") == Get(n, "parameter_count");
    assert Get(m, "output_parms") == Get(n, "output_parms");
  }

  lemma HeadAlike(m: Fields, n: Fields)
    requires Alike(m, n)
    ensures ReadHead(m) == ReadHead(n) && ReadRows(m) == ReadRows(n)
  {
    assert Get(m, "id") == Get(n, "id") && Get(m, "success") == Get(n, "success");
    assert Get(m, "has_results") == Get(n, "has_results") && Get(m, "update_count") == Get(n, "update_count");
    assert Get(m, "cont_id") == Get(n, "cont_id") && Get(m, "is_done") == Get(n, "is_done");
    assert Get(m, "metadata") == Get(n, "metadata") && Get(m, "data") == Get(n, "data");
    assert Get(m, "execution_time") == Get(n, "execution_time");
  }

  lemma QueryFrom(m: Fields, n: Fields)
    requires ReadHead(m) == ReadHead(n) && ReadRows(m) == ReadRows(n) && ReadStatus(m) == ReadStatus(n)
    ensures DecodeQuery(m) == DecodeQuery(n)
  {
  }

  /** The records that have no field with two names read the same. */
  predicate SameRecords(m: Fields, n: Fields) {
    && DecodeConnected(m) == DecodeConnected(n) && DecodePrepared(m) == DecodePrepared(n)
    && DecodeClResult(m) == DecodeClResult(n) && DecodeAck(m) == DecodeAck(n)
    && Required(m, "id", AsString) == Required(n, "id", AsString)
    && DecodeTextBody(m, "version") == DecodeTextBody(n, "version")
    && DecodeTextBody(m, "job") == DecodeTextBody(n, "job")
    && DecodeTraceData(m) == DecodeTraceData(n) && DecodeDove(m) == DecodeDove(n)
  }

  lemma AcksAlike(m: Fields, n: Fields)
    requires Alike(m, n)
    ensures DecodeConnected(m) == DecodeConnected(n) && DecodePrepared(m) == DecodePrepared(n)
    ensures DecodeClResult(m) == DecodeClResult(n) && DecodeAck(m) == DecodeAck(n)
    ensures Required(m, "id", AsString) == Required(n, "id", AsString)
  {
    assert Get(m, "id") == Get(n, "id") && Get(m, "success") == Get(n, "success") && Get(m, "job") == Get(n, "job");
    assert Get(m, "version") == Get(n, "version") && Get(m, "cont_id") == Get(n, "cont_id");
    assert Get(m, "execution_time") == Get(n, "execution_time") && Get(m, "messages") == Get(n, "messages");
  }

  lemma TextsAlike(m: Fields, n: Fields)
    requires Alike(m, n)
    ensures DecodeTextBody(m, "version") == DecodeTextBody(n, "version")
    ensures DecodeTextBody(m, "job") == DecodeTextBody(n, "job")
    ensures DecodeTraceData(m) == DecodeTraceData(n) && DecodeDove(m) == DecodeDove(n)
  {
    assert Get(m, "id") == Get(n, "id") && Get(m, "success") == Get(n, "success") && Get(m, "job") == Get(n, "job");
    assert Get(m, "version") == Get(n, "version") && Get(m, "tracedata") == Get(n, "tracedata");
    assert Get(m, "vedata") == Get(n, "vedata") && Get(m, "vemetadata") == Get(n, "vemetadata");
    assert Get(m, "result") == Get(n, "result");
  }

  lemma RecordsAlike(m: Fields, n: Fields)
    requires Alike(m, n)
    ensures SameRecords(m, n)
  {
    AcksAlike(m, n);
    TextsAlike(m, n);
  }

  lemma TaggedAck(tag: string, m: Fields, n: Fields)
    requires tag in {"connected", "pong", "exited", "prepared_statement", "sql_closed", "cl_result", "config_set"}
    requires SameRecords(m, n)
    ensures DecodeTagged(tag, m) == DecodeTagged(tag, n)
  {
  }

  lemma TaggedText(tag: string, m: Fields, n: Fields)
    requires tag in {"version", "db_job", "trace_data", "dove_result"}
    requires SameRecords(m, n)
    ensures DecodeTagged(tag, m) == DecodeTagged(tag, n)
  {
  }

  lemma TaggedBody(tag: string, m: Fields, n: Fields)
    requires tag !in {"connected", "pong", "exited", "prepared_statement", "sql_closed", "cl_result", "config_set"}
    requires tag !in {"version", "db_job", "trace_data", "dove_result"}
    requires DecodeErrorBody(m) == DecodeErrorBody(n) && DecodeQuery(m) == DecodeQuery(n)
    ensures DecodeTagged(tag, m) == DecodeTagged(tag, n)
  {
  }

  lemma TaggedFrom(tag: string, m: Fields, n: Fields)
    requires SameRecords(m, n) && DecodeErrorBody(m) == DecodeErrorBody(n) && DecodeQuery(m) == DecodeQuery(n)
    ensures DecodeTagged(tag, m) == DecodeTagged(tag, n)
  {
    if tag in {"connected", "pong", "exited", "prepared_statement", "sql_closed", "cl_result", "config_set"} {
      TaggedAck(tag, m, n);
    } else if tag in {"version", "db_job", "trace_data", "dove_result"} {
      TaggedText(tag, m, n);
    } else {
      TaggedBody(tag, m, n);
    }
  }

  /** The keys that tell untagged shapes apart, and those that coercing shapes read. */
  predicate SameShape(m: Fields, n: Fields) {
    && Get(m, "id") == Get(n, "id") && Get(m, "success") == Get(n, "success") && Get(m, "data") == Get(n, "data")
    && Get(m, "has_results") == Get(n, "has_results") && Get(m, "cont_id") == Get(n, "cont_id")
    && Get(m, "vedata") == Get(n, "vedata") && Get(m, "vemetadata") == Get(n, "vemetadata")
    && Get(m, "job") == Get(n, "job") && Get(m, "version") == Get(n, "version")
    && Get(m, "tracedata") == Get(n, "tracedata") && Get(m, "jtopentracedata") == Get(n, "jtopentracedata")
  }

  lemma UntaggedFrom(m: Fields, n: Fields)
    requires SameShape(m, n) && DecodePrepared(m) == DecodePrepared(n) && DecodeDove(m) == DecodeDove(n)
    requires DecodeErrorBody(m) == DecodeErrorBody(n) && DecodeQuery(m) == DecodeQuery(n)
    ensures DecodeUntagged(m) == DecodeUntagged(n)
  {
    assert forall k :: Get(m, k) == Get(n, k) ==> (k in m <==> k in n) && (k in m ==> m[k] == n[k]);
  }

  lemma BodiesRespelled(m: Fields, names: Names)
    requires "sql_rc" !in m && "sql_state" !in m
    ensures DecodeErrorBody(Respelled(m, names)) == DecodeErrorBody(m)
    ensures ReadStatus(Respelled(m, names)) == ReadStatus(m)
    ensures DecodeQuery(Respelled(m, names)) == DecodeQuery(m)
  {
    var n := Respelled(m, names);
    RespelledAlike(m, names);
    CodeReads(m, names);
    StateReads(m, names);
    ErrorAlike(n, m);
    StatusAlike(n, m);
    HeadAlike(n, m);
    QueryFrom(n, m);
  }

  lemma WithoutTag(m: Fields, names: Names)
    ensures Respelled(m, names) - {"type"} == Respelled(m - {"type"}, names)
    ensures Get(Respelled(m, names), "type") == Get(m, "type")
  {
  }

  lemma BodyRespelled(tag: string, m: Fields, names: Names)
    requires "sql_rc" !in m && "sql_state" !in m
    ensures DecodeTagged(tag, Respelled(m, names)) == DecodeTagged(tag, m)
    ensures DecodeUntagged(Respelled(m, names)) == DecodeUntagged(m)
  {
    var n := Respelled(m, names);
    BodiesRespelled(m, names);
    RespelledAlike(m, names);
    RecordsAlike(n, m);
    TaggedFrom(tag, n, m);
    ShapeAlike(n, m);
    UntaggedFrom(n, m);
  }

  lemma ShapeAlike(m: Fields, n: Fields)
    requires Alike(m, n)
    ensures SameShape(m, n)
  {
  }

  lemma FrameFrom(m: Fields, n: Fields)
    requires Get(m, "type") == Get(n, "type") && DecodeUntagged(m) == DecodeUntagged(n)
    requires forall tag :: DecodeTagged(tag, m - {"type"}) == DecodeTagged(tag, n - {"type"})
    ensures DecodeValue(Obj(m)) == DecodeValue(Obj(n))
  {
    assert "type" in m <==> "type" in n;
  }

  /** By whichever name a frame spells its SQL code and its SQL state: it means the same. */
  lemma FrameRespelled(m: Fields, names: Names)
    requires "sql_rc" !in m && "sql_state" !in m
    ensures DecodeValue(Obj(Respelled(m, names))) == DecodeValue(Obj(m))
  {
    var n := Respelled(m, names);
    WithoutTag(m, names);
    BodyRespelled("", m, names);
    forall tag ensures DecodeTagged(tag, n - {"type"}) == DecodeTagged(tag, m - {"type"}) {
      BodyRespelled(tag, m - {"type"}, names);
    }
    FrameFrom(n, m);
  }

  /** Neither an error nor a page may spell one of these fields by both its names. */
  lemma BothNamesFail(m: Fields)
    requires ("sqlcode" in m && "sql_rc" in m) || ("sqlstate" in m && "sql_state" in m)
    ensures DecodeErrorBody(m).Err? && DecodeQuery(m).Err?
  {
  }

  // ---- what may be left out -------------------------------------------------

  const PAGE_DEFAULTS := map[
    "has_results" := Bool(false), "update_count" := Int(0), "cont_id" := Null, "is_done" := Null,
    "metadata" := Obj(map[]), "data" := Arr([]), "execution_time" := Float(0.0),
    "error" := Null, "parameter_count" := Null, "output_parms" := Arr([])]

  /** `n` holds under `k` what `m` does, or else `v`. */
  predicate Fills(n: Fields, m: Fields, k: string, v: Json) {
    Get(n, k) == if k in m then Get(m, k) else Some(v)
  }

  lemma ReadsDefault<T>(n: Fields, m: Fields, k: string, v: Json, read: Json -> Result<T, DecodeError>, default: T)
    requires Fills(n, m, k, v) && read(v) == Ok(default)
    ensures Defaulted(n, k, read, default) == Defaulted(m, k, read, default)
  {
  }

  lemma ReadsNull<T>(n: Fields, m: Fields, k: string, read: Json -> Result<T, DecodeError>)
    requires Fills(n, m, k, Null)
    ensures Optional(n, k, read) == Optional(m, k, read)
  {
  }

  lemma ReadsEmpty<T>(n: Fields, m: Fields, k: string, read: Json -> Result<T, DecodeError>)
    requires Fills(n, m, k, Arr([]))
    ensures List(n, k, read) == List(m, k, read)
  {
  }

  lemma HeadDefaults(m: Fields, n: Fields)
    requires Get(n, "id") == Get(m, "id") && Get(n, "success") == Get(m, "success")
    requires Fills(n, m, "has_results", Bool(false)) && Fills(n, m, "update_count", Int(0))
    requires Fills(n, m, "cont_id", Null) && Fills(n, m, "is_done", Null)
    ensures ReadHead(n) == ReadHead(m)
  {
    ReadsDefault(n, m, "has_results", Bool(false), AsBool, false);
    ReadsDefault(n, m, "update_count", Int(0), AsI64, 0);
    ReadsNull(n, m, "cont_id", AsString);
    ReadsNull(n, m, "is_done", AsBool);
  }

  lemma NoMetaData()
    ensures AsMetaData(Obj(map[])) == Ok(QueryMetaData(0, [], None, []))
  {
  }

  lemma RowsDefaults(m: Fields, n: Fields)
    requires Fills(n, m, "metadata", Obj(map[])) && Fills(n, m, "data", Arr([]))
    requires Fills(n, m, "execution_time", Float(0.0))
    ensures ReadRows(n) == ReadRows(m)
  {
    NoMetaData();
    ReadsDefault(n, m, "metadata", Obj(map[]), AsMetaData, EMPTY_META_DATA);
    ReadsDefault(n, m, "data", Arr([]), AsArray, []);
    ReadsDefault(n, m, "execution_time", Float(0.0), AsFloat, 0.0);
  }

  lemma StatusDefaults(m: Fields, n: Fields)
    requires Get(n, "sqlcode") == Get(m, "sqlcode") && Get(n, "sql_rc") == Get(m, "sql_rc")
    requires Get(n, "sqlstate") == Get(m, "sqlstate") && Get(n, "sql_state") == Get(m, "sql_state")
    requires Fills(n, m, "error", Null) && Fills(n, m, "parameter_count", Null)
    requires Fills(n, m, "output_parms", Arr([]))
    ensures ReadStatus(n) == ReadStatus(m)
  {
    SameReads(n, m, "sqlcode", "sql_rc", AsI32);
    SameReads(n, m, "sqlstate", "sql_state", AsString);
    ReadsNull(n, m, "error", AsString);
    ReadsNull(n, m, "parameter_count", AsU32);
    ReadsEmpty(n, m, "output_parms", AsParameterResult);
  }

  lemma FilledIn(d: Fields, m: Fields, k: string)
    ensures Get(d + m, k) == if k in m then Get(m, k) else Get(d, k)
  {
  }

  lemma HeadDefaultsAre(d: Fields)
    requires d == PAGE_DEFAULTS
    ensures Get(d, "id") == Get(d, "success") == None && Get(d, "has_results") == Some(Bool(false))
    ensures Get(d, "update_count") == Some(Int(0)) && Get(d, "cont_id") == Get(d, "is_done") == Some(Null)
  {
  }

  lemma RowsDefaultsAre(d: Fields)
    requires d == PAGE_DEFAULTS
    ensures Get(d, "metadata") == Some(Obj(map[])) && Get(d, "data") == Some(Arr([]))
    ensures Get(d, "execution_time") == Some(Float(0.0))
  {
  }

  lemma StatusDefaultsAre(d: Fields)
    requires d == PAGE_DEFAULTS
    ensures Get(d, "sqlcode") == Get(d, "sql_rc") == Get(d, "sqlstate") == Get(d, "sql_state") == None
    ensures Get(d, "error") == Get(d, "parameter_count") == Some(Null) && Get(d, "output_parms") == Some(Arr([]))
  {
  }

  lemma HeadCompleted(d: Fields, m: Fields)
    requires d == PAGE_DEFAULTS
    ensures ReadHead(d + m) == ReadHead(m)
  {
    HeadDefaultsAre(d);
    FilledIn(d, m, "id");
    FilledIn(d, m, "success");
    FilledIn(d, m, "has_results");
    FilledIn(d, m, "update_count");
    FilledIn(d, m, "cont_id");
    FilledIn(d, m, "is_done");
    HeadDefaults(m, d + m);
  }

  lemma RowsCompleted(d: Fields, m: Fields)
    requires d == PAGE_DEFAULTS
    ensures ReadRows(d + m) == ReadRows(m)
  {
    RowsDefaultsAre(d);
    FilledIn(d, m, "metadata");
    FilledIn(d, m, "data");
    FilledIn(d, m, "execution_time");
    RowsDefaults(m, d + m);
  }

  lemma StatusCompleted(d: Fields, m: Fields)
    requires d == PAGE_DEFAULTS
    ensures ReadStatus(d + m) == ReadStatus(m)
  {
    StatusDefaultsAre(d);
    FilledIn(d, m, "sqlcode");
    FilledIn(d, m, "sql_rc");
    FilledIn(d, m, "sqlstate");
    FilledIn(d, m, "sql_state");
    FilledIn(d, m, "error");
    FilledIn(d, m, "parameter_count");
    FilledIn(d, m, "output_parms");
    StatusDefaults(m, d + m);
  }

  /** A page means what it would mean with every field it leaves out spelled as its default. */
  lemma PageDefaults(m: Fields)
    ensures DecodeQuery(PAGE_DEFAULTS + m) == DecodeQuery(m)
  {
    HeadCompleted(PAGE_DEFAULTS, m);
    RowsCompleted(PAGE_DEFAULTS, m);
    StatusCompleted(PAGE_DEFAULTS, m);
    QueryFrom(PAGE_DEFAULTS + m, m);
  }

  lemma ErrorDefaults(m: Fields)
    ensures DecodeErrorBody(map["error" := Null, "job" := Null] + m) == DecodeErrorBody(m)
  {
    var n := map["error" := Null, "job" := Null] + m;
    assert Get(n, "id") == Get(m, "id") && Get(n, "success") == Get(m, "success");
    assert Get(n, "sqlcode") == Get(m, "sqlcode") && Get(n, "sql_rc") == Get(m, "sql_rc");
    assert Get(n, "sqlstate") == Get(m, "sqlstate") && Get(n, "sql_state") == Get(m, "sql_state");
  }

  /** The same for what describes a result set and its columns. */
  lemma MetaDataDefaults(m: Fields, n: Fields)
    requires n == map["column_count" := Int(0), "columns" := Arr([]), "job" := Null, "parameters" := Arr([])] + m
    ensures AsMetaData(Obj(n)) == AsMetaData(Obj(m))
  {
    ReadsDefault(n, m, "column_count", Int(0), AsU32, 0);
    ReadsEmpty(n, m, "columns", AsColumn);
    ReadsNull(n, m, "job", AsString);
    ReadsEmpty(n, m, "parameters", AsParameterDetail);
  }

  lemma ColumnDefaults(m: Fields, n: Fields)
    requires n == map["label" := Null, "type" := Null, "display_size" := Null, "precision" := Null, "scale" := Null] + m
    ensures AsColumn(Obj(n)) == AsColumn(Obj(m))
  {
    assert Get(n, "name") == Get(m, "name");
    ReadsNull(n, m, "label", AsString);
    ReadsNull(n, m, "type", AsString);
    ReadsNull(n, m, "display_size", AsU32);
    ReadsNull(n, m, "precision", AsU32);
    ReadsNull(n, m, "scale", AsU32);
  }

  /** And for a parameter, before the call and after it. */
  lemma ParameterDefaults(m: Fields, n: Fields)
    requires n == map["index" := Int(0), "type" := Str(""), "mode" := Str(""), "precision" := Int(0),
                      "scale" := Null, "name" := Str(""), "ccsid" := Null, "value" := Null] + m
    ensures AsParameterDetail(Obj(n)) == AsParameterDetail(Obj(m))
    ensures AsParameterResult(Obj(n)) == AsParameterResult(Obj(m))
  {
    ReadsDefault(n, m, "index", Int(0), AsU32, 0);
    ReadsDefault(n, m, "type", Str(""), AsString, "");
    ReadsDefault(n, m, "mode", Str(""), AsString, "");
    ReadsDefault(n, m, "precision", Int(0), AsU32, 0);
    ReadsDefault(n, m, "name", Str(""), AsString, "");
    ReadsNull(n, m, "scale", AsU32);
    ReadsNull(n, m, "ccsid", AsU32);
    ReadsNull(n, m, "value", AsValue);
  }

  /** And for acknowledgements: no version, no time and no trace are empty ones. */
  lemma AckDefaults(m: Fields)
    ensures DecodeConnected(map["version" := Str("")] + m) == DecodeConnected(m)
    ensures DecodePrepared(map["execution_time" := Float(0.0)] + m) == DecodePrepared(m)
    ensures DecodeTraceData(map["tracedata" := Str("")] + m) == DecodeTraceData(m)
    ensures DecodeTraceData(m["tracedata" := Null]) == DecodeTraceData(m["tracedata" := Str("")])
  {
  }

  // ---- other spellings of a value -------------------------------------------

  /** A time may be spelled as an integer. */
  lemma IntegralTime(m: Fields, n: int)
    ensures DecodeQuery(m["execution_time" := Int(n)]) == DecodeQuery(m["execution_time" := Float(n as real)])
    ensures DecodePrepared(m["execution_time" := Int(n)]) == DecodePrepared(m["execution_time" := Float(n as real)])
  {
    var a, b := m["execution_time" := Int(n)], m["execution_time" := Float(n as real)];
    TimeApart(m, Int(n), a);
    TimeApart(m, Float(n as real), b);
    TimeReads(a, b, n);
    QueryFrom(a, b);
  }

  lemma TimeApart(m: Fields, v: Json, n: Fields)
    requires n == m["execution_time" := v]
    ensures ReadHead(n) == ReadHead(m) && ReadStatus(n) == ReadStatus(m)
  {
    assert Get(n, "id") == Get(m, "id") && Get(n, "success") == Get(m, "success");
    assert Get(n, "has_results") == Get(m, "has_results") && Get(n, "update_count") == Get(m, "update_count");
    assert Get(n, "cont_id") == Get(m, "cont_id") && Get(n, "is_done") == Get(m, "is_done");
    assert Get(n, "sqlcode") == Get(m, "sqlcode") && Get(n, "sql_rc") == Get(m, "sql_rc");
    assert Get(n, "sqlstate") == Get(m, "sqlstate") && Get(n, "sql_state") == Get(m, "sql_state");
    assert Get(n, "error") == Get(m, "error") && Get(n, "parameter_count") == Get(m, "parameter_count");
    assert Get(n, "output_parms") == Get(m, "output_parms");
  }

  lemma TimeReads(a: Fields, b: Fields, n: int)
    requires Get(a, "execution_time") == Some(Int(n)) && Get(b, "execution_time") == Some(Float(n as real))
    requires Get(a, "metadata") == Get(b, "metadata") && Get(a, "data") == Get(b, "data")
    ensures ReadRows(a) == ReadRows(b)
  {
  }

  /** An explain tree may be spelled under `result`; one under `vedata` that is not `null` goes first. */
  lemma DoveSpellings(m: Fields, tree: Json, other: Json)
    requires tree != Null
    ensures DecodeDove((m - {"vedata"})["result" := tree]) == DecodeDove((m - {"result"})["vedata" := tree])
    ensures DecodeDove(m["result" := other]["vedata" := tree]) == DecodeDove((m - {"result"})["vedata" := tree])
  {
    var a, b := (m - {"vedata"})["result" := tree], (m - {"result"})["vedata" := tree];
    assert Get(a, "id") == Get(b, "id") && Get(a, "success") == Get(b, "success");
    assert Get(a, "vemetadata") == Get(b, "vemetadata");
  }

  // ---- which shape a frame has ----------------------------------------------

  /** An untagged frame is recognized by its keys: which of them decides, when it has several. */
  lemma UntaggedShapes(m: Fields, failed: bool, dove: bool, page: bool, handle: bool)
    requires "type" !in m && failed == (Get(m, "success") == Some(Bool(false)))
    requires dove == ("vedata" in m || "vemetadata" in m) && page == ("data" in m || "has_results" in m)
    requires handle == ("cont_id" in m)
    ensures dove && (failed || page || !handle) ==> DecodeValue(Obj(m)) == DecodeDove(m)
    ensures handle && !failed && !page ==> DecodeValue(Obj(m)) == DecodePrepared(m)
    ensures page && !dove ==> DecodeValue(Obj(m)) == Wrapped(DecodeQuery(m))
    ensures failed && !dove && !page ==> DecodeValue(Obj(m)) == Failure(DecodeErrorBody(m))
    ensures !failed && !dove && !page && !handle ==> DecodeValue(Obj(m)) == Coerced(m)
  {
  }

  function Wrapped(q: Result<QueryBody, DecodeError>): Result<Response, DecodeError> {
    if q.Ok? then Ok(QueryResult(q.value)) else Err(q.error)
  }

  function Failure(e: Result<ErrorBody, DecodeError>): Result<Response, DecodeError> {
    if e.Ok? then Ok(Error(e.value)) else Err(e.error)
  }

  /** What is left is told apart by the first of these keys, and its strings may be missing. */
  function Coerced(m: Fields): Result<Response, DecodeError> {
    var id := StringOrEmpty(m, "id");
    if "job" in m then Ok(Connected(id, StringOrEmpty(m, "version"), StringOrEmpty(m, "job")))
    else if "version" in m then Ok(Version(id, true, StringOrEmpty(m, "version")))
    else if "tracedata" in m || "jtopentracedata" in m then Ok(TraceData(id, true, StringOrEmpty(m, "tracedata")))
    else if Get(m, "success") == Some(Bool(true)) then Ok(Pong(id))
    else Err(Unrecognized)
  }
}
