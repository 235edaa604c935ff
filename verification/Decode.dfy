/**
  Decoding of daemon frames: the untagged dialect of live daemons and the
  dialect that carries a `type` discriminator.
 */
module Decode {
  import opened Wrappers
  import opened Json
  import opened Protocol
  import NamedRows

  // ---- scalar readers -------------------------------------------------------

  function AsString(v: Json): Result<string, DecodeError> {
    if v.Str? then Ok(v.s) else Err(Shape)
  }

  function AsBool(v: Json): Result<bool, DecodeError> {
    if v.Bool? then Ok(v.b) else Err(Shape)
  }

  function AsU32(v: Json): Result<u32, DecodeError> {
    if v.Int? && 0 <= v.n < 0x1_0000_0000 then Ok(v.n) else Err(Shape)
  }

  function AsI32(v: Json): Result<i32, DecodeError> {
    if v.Int? && -0x8000_0000 <= v.n < 0x8000_0000 then Ok(v.n) else Err(Shape)
  }

  function AsI64(v: Json): Result<i64, DecodeError> {
    if v.Int? && -0x8000_0000_0000_0000 <= v.n < 0x8000_0000_0000_0000 then Ok(v.n) else Err(Shape)
  }

  /** Integers are accepted where a float is expected. */
  function AsFloat(v: Json): Result<real, DecodeError> {
    match v
    case Float(x) => Ok(x)
    case Int(n) => Ok(n as real)
    case _ => Err(Shape)
  }

  function AsArray(v: Json): Result<seq<Json>, DecodeError> {
    if v.Arr? then Ok(v.items) else Err(Shape)
  }

  function AsValue(v: Json): Result<Json, DecodeError> {
    Ok(v)
  }

  /** `null` reads as the empty string. */
  function AsStringOrNull(v: Json): Result<string, DecodeError> {
    if v.Null? then Ok("") else AsString(v)
  }

  function Each<T>(items: seq<Json>, read: Json -> Result<T, DecodeError>): Result<seq<T>, DecodeError> {
    if items == [] then Ok([]) else
      var head :- read(items[0]);
      var tail :- Each(items[1..], read);
      Ok([head] + tail)
  }

  // ---- field readers --------------------------------------------------------

  function Required<T>(m: Fields, k: string, read: Json -> Result<T, DecodeError>): Result<T, DecodeError> {
    match Get(m, k)
    case None => Err(Shape)
    case Some(v) => read(v)
  }

  /** A missing field takes its default; `null` does not. */
  function Defaulted<T>(m: Fields, k: string, read: Json -> Result<T, DecodeError>, default: T)
    : Result<T, DecodeError>
  {
    match Get(m, k)
    case None => Ok(default)
    case Some(v) => read(v)
  }

  /** A missing field and `null` are both absent. */
  function Optional<T>(m: Fields, k: string, read: Json -> Result<T, DecodeError>): Result<Option<T>, DecodeError> {
    match Get(m, k)
    case None => Ok(None)
    case Some(Null) => Ok(None)
    case Some(v) =>
      var x :- read(v);
      Ok(Some(x))
  }

  /** One field under two names: carrying both is a duplicate field. */
  function Aliased<T>(m: Fields, k: string, alias: string, read: Json -> Result<T, DecodeError>)
    : Result<Option<T>, DecodeError>
  {
    if Get(m, alias).None? then Optional(m, k, read)
    else if Get(m, k).None? then Optional(m, alias, read)
    else Err(Shape)
  }

  function List<T>(m: Fields, k: string, read: Json -> Result<T, DecodeError>): Result<seq<T>, DecodeError> {
    match Get(m, k)
    case None => Ok([])
    case Some(v) =>
      var items :- AsArray(v);
      Each(items, read)
  }

  /** A nested record is an object, or an array of its fields in declaration order. */
  function Record(v: Json, names: seq<string>): Result<Fields, DecodeError> {
    match v
    case Obj(m) => Ok(m)
    case Arr(items) =>
      if |items| <= |names| then Ok(ByPosition(items, names)) else Err(Shape)
    case _ => Err(Shape)
  }

  function ByPosition(items: seq<Json>, names: seq<string>): Fields
    requires |items| <= |names|
  {
    if items == [] then map[] else ByPosition(items[1..], names[1..])[names[0] := items[0]]
  }

  // ---- record readers -------------------------------------------------------

  function AsColumn(v: Json): Result<Column, DecodeError> {
    var m :- Record(v, ["name", "label", "type", "display_size", "precision", "scale"]);
    var name :- Required(m, "name", AsString);
    var lbl :- Optional(m, "label", AsString);
    var typeName :- Optional(m, "type", AsString);
    var displaySize :- Optional(m, "display_size", AsU32);
    var precision :- Optional(m, "precision", AsU32);
    var scale :- Optional(m, "scale", AsU32);
    Ok(Column(name, lbl, typeName, displaySize, precision, scale))
  }

  function AsParameterDetail(v: Json): Result<ParameterDetail, DecodeError> {
    var m :- Record(v, ["type", "mode", "precision", "scale", "name"]);
    var typeName :- Defaulted(m, "type", AsString, "");
    var mode :- Defaulted(m, "mode", AsString, "");
    var precision :- Defaulted(m, "precision", AsU32, 0);
    var scale :- Optional(m, "scale", AsU32);
    var name :- Defaulted(m, "name", AsString, "");
    Ok(ParameterDetail(typeName, mode, precision, scale, name))
  }

  function AsParameterResult(v: Json): Result<ParameterResult, DecodeError> {
    var m :- Record(v, ["index", "type", "precision", "scale", "name", "ccsid", "value"]);
    var index :- Defaulted(m, "index", AsU32, 0);
    var typeName :- Defaulted(m, "type", AsString, "");
    var precision :- Defaulted(m, "precision", AsU32, 0);
    var scale :- Optional(m, "scale", AsU32);
    var name :- Defaulted(m, "name", AsString, "");
    var ccsid :- Optional(m, "ccsid", AsU32);
    var value :- Optional(m, "value", AsValue);
    Ok(ParameterResult(index, typeName, precision, scale, name, ccsid, value))
  }

  function AsMetaData(v: Json): Result<QueryMetaData, DecodeError> {
    var m :- Record(v, ["column_count", "columns", "job", "parameters"]);
    var columnCount :- Defaulted(m, "column_count", AsU32, 0);
    var columns :- List(m, "columns", AsColumn);
    var job :- Optional(m, "job", AsString);
    var parameters :- List(m, "parameters", AsParameterDetail);
    Ok(QueryMetaData(columnCount, columns, job, parameters))
  }

  function AsClMessage(v: Json): Result<ClMessage, DecodeError> {
    var m :- Record(v, ["id", "type", "text"]);
    var id :- Optional(m, "id", AsString);
    var kind :- Optional(m, "type", AsString);
    var text :- Optional(m, "text", AsString);
    Ok(ClMessage(id, kind, text))
  }

  // ---- bodies ---------------------------------------------------------------

  datatype QueryHead = QueryHead(
    id: string, success: bool, hasResults: bool, updateCount: i64, contId: Option<string>, isDone: Option<bool>)

  datatype QueryRows = QueryRows(metadata: QueryMetaData, rows: seq<Json>, executionTime: real)

  datatype QueryStatus = QueryStatus(
    error: Option<string>, sqlcode: Option<i32>, sqlstate: Option<string>,
    parameterCount: Option<u32>, outputParms: seq<ParameterResult>)

  function ReadHead(m: Fields): Result<QueryHead, DecodeError> {
    var id :- Required(m, "id", AsString);
    var success :- Required(m, "success", AsBool);
    var hasResults :- Defaulted(m, "has_results", AsBool, false);
    var updateCount :- Defaulted(m, "update_count", AsI64, 0);
    var contId :- Optional(m, "cont_id", AsString);
    var isDone :- Optional(m, "is_done", AsBool);
    Ok(QueryHead(id, success, hasResults, updateCount, contId, isDone))
  }

  function ReadRows(m: Fields): Result<QueryRows, DecodeError> {
    var metadata :- Defaulted(m, "metadata", AsMetaData, EMPTY_META_DATA);
    var rows :- Defaulted(m, "data", AsArray, []);
    var executionTime :- Defaulted(m, "execution_time", AsFloat, 0.0);
    Ok(QueryRows(metadata, rows, executionTime))
  }

  function ReadStatus(m: Fields): Result<QueryStatus, DecodeError> {
    var error :- Optional(m, "error", AsString);
    var sqlcode :- Aliased(m, "sqlcode", "sql_rc", AsI32);
    var sqlstate :- Aliased(m, "sqlstate", "sql_state", AsString);
    var parameterCount :- Optional(m, "parameter_count", AsU32);
    var outputParms :- List(m, "output_parms", AsParameterResult);
    Ok(QueryStatus(error, sqlcode, sqlstate, parameterCount, outputParms))
  }

  /**
    A result page. Without `is_done` a result set has more pages and anything
    else is finished.
   */
  function DecodeQuery(m: Fields): Result<QueryBody, DecodeError> {
    var h :- ReadHead(m);
    var r :- ReadRows(m);
    var s :- ReadStatus(m);
    var data :- NamedRows.Named(r.metadata.columns, r.rows);
    var isDone := if h.isDone.Some? then h.isDone.value else !(h.hasResults || data != []);
    Ok(QueryBody(h.id, h.success, h.hasResults, h.updateCount, h.contId, isDone, r.metadata, data,
                 r.executionTime, s.error, s.sqlcode, s.sqlstate, s.parameterCount, s.outputParms))
  }

  function DecodeErrorBody(m: Fields): Result<ErrorBody, DecodeError> {
    var id :- Required(m, "id", AsString);
    var success :- Required(m, "success", AsBool);
    var sqlstate :- Aliased(m, "sqlstate", "sql_state", AsString);
    var sqlcode :- Aliased(m, "sqlcode", "sql_rc", AsI32);
    var error :- Optional(m, "error", AsString);
    var job :- Optional(m, "job", AsString);
    Ok(ErrorBody(id, success, sqlstate, sqlcode, error, job))
  }

  function DecodePrepared(m: Fields): Result<Response, DecodeError> {
    var id :- Required(m, "id", AsString);
    var success :- Required(m, "success", AsBool);
    var contId :- Required(m, "cont_id", AsString);
    var executionTime :- Defaulted(m, "execution_time", AsFloat, 0.0);
    Ok(PreparedStatement(id, success, contId, executionTime))
  }

  /** `vedata` wins over the tagged dialect's `result`; neither means `null`. */
  function DecodeDove(m: Fields): Result<Response, DecodeError> {
    var id :- Required(m, "id", AsString);
    var success :- Required(m, "success", AsBool);
    var vedata :- Optional(m, "vedata", AsValue);
    var vemetadata :- Optional(m, "vemetadata", AsValue);
    var result :- Optional(m, "result", AsValue);
    var tree := if vedata.Some? then vedata.value else if result.Some? then result.value else Null;
    Ok(DoveResult(id, success, tree, vemetadata))
  }

  function DecodeConnected(m: Fields): Result<Response, DecodeError> {
    var id :- Required(m, "id", AsString);
    var version :- Defaulted(m, "version", AsString, "");
    var job :- Required(m, "job", AsString);
    Ok(Connected(id, version, job))
  }

  function DecodeClResult(m: Fields): Result<Response, DecodeError> {
    var id :- Required(m, "id", AsString);
    var success :- Required(m, "success", AsBool);
    var items :- Required(m, "messages", AsArray);
    var messages :- Each(items, AsClMessage);
    Ok(ClResult(id, success, messages))
  }

  function DecodeTraceData(m: Fields): Result<Response, DecodeError> {
    var id :- Required(m, "id", AsString);
    var success :- Required(m, "success", AsBool);
    var tracedata :- Defaulted(m, "tracedata", AsStringOrNull, "");
    Ok(TraceData(id, success, tracedata))
  }

  function DecodeTextBody(m: Fields, k: string): Result<(string, bool, string), DecodeError> {
    var id :- Required(m, "id", AsString);
    var success :- Required(m, "success", AsBool);
    var text :- Required(m, k, AsString);
    Ok((id, success, text))
  }

  function DecodeAck(m: Fields): Result<(string, bool), DecodeError> {
    var id :- Required(m, "id", AsString);
    var success :- Required(m, "success", AsBool);
    Ok((id, success))
  }

  // ---- dialects -------------------------------------------------------------

  /** A frame that names its variant under `type`; `m` no longer holds that key. */
  function DecodeTagged(tag: string, m: Fields): Result<Response, DecodeError> {
    match tag
    case "connected" => DecodeConnected(m)
    case "pong" => var id :- Required(m, "id", AsString); Ok(Pong(id))
    case "exited" => var id :- Required(m, "id", AsString); Ok(Exited(id))
    case "query_result" => var q :- DecodeQuery(m); Ok(QueryResult(q))
    case "prepared_statement" => DecodePrepared(m)
    case "sql_closed" => var a :- DecodeAck(m); Ok(SqlClosed(a.0, a.1))
    case "cl_result" => DecodeClResult(m)
    case "version" => var t :- DecodeTextBody(m, "version"); Ok(Version(t.0, t.1, t.2))
    case "db_job" => var t :- DecodeTextBody(m, "job"); Ok(DbJob(t.0, t.1, t.2))
    case "config_set" => var a :- DecodeAck(m); Ok(ConfigSet(a.0, a.1))
    case "trace_data" => DecodeTraceData(m)
    case "dove_result" => DecodeDove(m)
    case "error" => var e :- DecodeErrorBody(m); Ok(Error(e))
    case _ => Err(UnknownType(tag))
  }

  predicate HasDove(m: Fields) {
    "vedata" in m || "vemetadata" in m
  }

  predicate LooksLikeResult(m: Fields) {
    "data" in m || "has_results" in m
  }

  /** A frame recognized by its keys alone, in the order the daemon's shapes are told apart. */
  function DecodeUntagged(m: Fields): Result<Response, DecodeError> {
    if "success" in m && m["success"] == Bool(false) then
      if HasDove(m) then DecodeDove(m)
      else if LooksLikeResult(m) then var q :- DecodeQuery(m); Ok(QueryResult(q))
      else var e :- DecodeErrorBody(m); Ok(Error(e))
    else if "cont_id" in m && !LooksLikeResult(m) then DecodePrepared(m)
    else if HasDove(m) then DecodeDove(m)
    else if LooksLikeResult(m) then var q :- DecodeQuery(m); Ok(QueryResult(q))
    else if "job" in m then
      Ok(Connected(StringOrEmpty(m, "id"), StringOrEmpty(m, "version"), StringOrEmpty(m, "job")))
    else if "version" in m then
      Ok(Version(StringOrEmpty(m, "id"), true, StringOrEmpty(m, "version")))
    else if "tracedata" in m || "jtopentracedata" in m then
      Ok(TraceData(StringOrEmpty(m, "id"), true, StringOrEmpty(m, "tracedata")))
    else if "success" in m && m["success"] == Bool(true) then
      Ok(Pong(StringOrEmpty(m, "id")))
    else Err(Unrecognized)
  }

  function DecodeValue(v: Json): Result<Response, DecodeError> {
    if !v.Obj? then Err(NotAnObject)
    else if "type" in v.fields then
      if v.fields["type"].Str? then DecodeTagged(v.fields["type"].s, v.fields - {"type"}) else Err(MissingType)
    else DecodeUntagged(v.fields)
  }
}
