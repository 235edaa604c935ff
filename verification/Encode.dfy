/**
  Encoding of responses: the tagged dialect a serializer derives from the
  response type, and the untagged dialect a live daemon speaks.
 */
module Encode {
  import opened Wrappers
  import opened Json
  import opened Protocol

  function OptString(o: Option<string>): Json {
    if o.Some? then Str(o.value) else Null
  }

  function OptInt(o: Option<int>): Json {
    if o.Some? then Int(o.value) else Null
  }

  /** Adds `k` only when there is something to add. */
  function Put(m: Fields, k: string, o: Option<Json>): Fields {
    if o.Some? then m[k := o.value] else m
  }

  function MapSeq<A, B>(f: A -> B, s: seq<A>): (r: seq<B>)
    ensures |r| == |s|
    ensures forall i :: 0 <= i < |s| ==> r[i] == f(s[i])
  {
    if s == [] then [] else [f(s[0])] + MapSeq(f, s[1..])
  }

  function StringOpt(o: Option<string>): Option<Json> {
    if o.Some? then Some(Str(o.value)) else None
  }

  function IntOpt(o: Option<int>): Option<Json> {
    if o.Some? then Some(Int(o.value)) else None
  }

  function ListOpt(items: seq<Json>): Option<Json> {
    if items == [] then None else Some(Arr(items))
  }

  function ColumnFields(c: Column): Fields {
    map["name" := Str(c.name), "label" := OptString(c.lbl), "type" := OptString(c.typeName),
        "display_size" := OptInt(c.displaySize), "precision" := OptInt(c.precision), "scale" := OptInt(c.scale)]
  }

  function ColumnJson(c: Column): Json {
    Obj(ColumnFields(c))
  }

  function ParameterDetailFields(p: ParameterDetail): Fields {
    Put(map["type" := Str(p.typeName), "mode" := Str(p.mode), "precision" := Int(p.precision), "name" := Str(p.name)],
        "scale", IntOpt(p.scale))
  }

  function ParameterDetailJson(p: ParameterDetail): Json {
    Obj(ParameterDetailFields(p))
  }

  function ParameterResultFields(p: ParameterResult): Fields {
    Put(Put(Put(
      map["index" := Int(p.index), "type" := Str(p.typeName), "precision" := Int(p.precision), "name" := Str(p.name)],
      "scale", IntOpt(p.scale)), "ccsid", IntOpt(p.ccsid)), "value", p.value)
  }

  function ParameterResultJson(p: ParameterResult): Json {
    Obj(ParameterResultFields(p))
  }

  function MetaDataFields(d: QueryMetaData): Fields {
    Put(Put(
      map["column_count" := Int(d.columnCount), "columns" := Arr(MapSeq(ColumnJson, d.columns))],
      "job", StringOpt(d.job)),
      "parameters", ListOpt(MapSeq(ParameterDetailJson, d.parameters)))
  }

  function ClMessageFields(m: ClMessage): Fields {
    map["id" := OptString(m.id), "type" := OptString(m.kind), "text" := OptString(m.text)]
  }

  function ClMessageJson(m: ClMessage): Json {
    Obj(ClMessageFields(m))
  }

  function RowJson(row: Fields): Json {
    Obj(row)
  }

  function HeadFields(q: QueryBody): Fields {
    map["id" := Str(q.id), "success" := Bool(q.success), "has_results" := Bool(q.hasResults),
        "update_count" := Int(q.updateCount), "cont_id" := OptString(q.contId), "is_done" := Bool(q.isDone)]
  }

  /** The result part of a page whose rows are spelled as `rows`. */
  function RowsSpelled(q: QueryBody, rows: seq<Json>): Fields {
    map["metadata" := Obj(MetaDataFields(q.metadata)), "data" := Arr(rows), "execution_time" := Float(q.executionTime)]
  }

  function RowsFields(q: QueryBody): Fields {
    RowsSpelled(q, MapSeq(RowJson, q.data))
  }

  function StatusFields(q: QueryBody): Fields {
    Put(Put(Put(Put(Put(map[],
      "error", StringOpt(q.error)),
      "sqlcode", IntOpt(q.sqlcode)),
      "sqlstate", StringOpt(q.sqlstate)),
      "parameter_count", IntOpt(q.parameterCount)),
      "output_parms", ListOpt(MapSeq(ParameterResultJson, q.outputParms)))
  }

  function QueryFields(q: QueryBody): Fields {
    HeadFields(q) + RowsFields(q) + StatusFields(q)
  }

  function ErrorFields(e: ErrorBody): Fields {
    map["id" := Str(e.id), "success" := Bool(e.success), "sqlstate" := OptString(e.sqlstate),
        "sqlcode" := OptInt(e.sqlcode), "error" := OptString(e.error), "job" := OptString(e.job)]
  }

  function Tag(r: Response): string {
    match r
    case Connected(_, _, _) => "connected"
    case Pong(_) => "pong"
    case Exited(_) => "exited"
    case QueryResult(_) => "query_result"
    case PreparedStatement(_, _, _, _) => "prepared_statement"
    case SqlClosed(_, _) => "sql_closed"
    case ClResult(_, _, _) => "cl_result"
    case Version(_, _, _) => "version"
    case DbJob(_, _, _) => "db_job"
    case ConfigSet(_, _) => "config_set"
    case TraceData(_, _, _) => "trace_data"
    case DoveResult(_, _, _, _) => "dove_result"
    case Error(_) => "error"
  }

  /** The fields of a response, without its tag. */
  function Body(r: Response): Fields {
    match r
    case Connected(id, version, job) => map["id" := Str(id), "version" := Str(version), "job" := Str(job)]
    case Pong(id) => map["id" := Str(id)]
    case Exited(id) => map["id" := Str(id)]
    case QueryResult(q) => QueryFields(q)
    case PreparedStatement(id, success, contId, executionTime) =>
      map["id" := Str(id), "success" := Bool(success), "cont_id" := Str(contId),
          "execution_time" := Float(executionTime)]
    case SqlClosed(id, success) => map["id" := Str(id), "success" := Bool(success)]
    case ClResult(id, success, messages) =>
      map["id" := Str(id), "success" := Bool(success), "messages" := Arr(MapSeq(ClMessageJson, messages))]
    case Version(id, success, version) => map["id" := Str(id), "success" := Bool(success), "version" := Str(version)]
    case DbJob(id, success, job) => map["id" := Str(id), "success" := Bool(success), "job" := Str(job)]
    case ConfigSet(id, success) => map["id" := Str(id), "success" := Bool(success)]
    case TraceData(id, success, tracedata) =>
      map["id" := Str(id), "success" := Bool(success), "tracedata" := Str(tracedata)]
    case DoveResult(id, success, vedata, vemetadata) =>
      Put(map["id" := Str(id), "success" := Bool(success), "vedata" := vedata], "vemetadata", vemetadata)
    case Error(e) => ErrorFields(e)
  }

  function EncodeTagged(r: Response): Json {
    Obj(Body(r)["type" := Str(Tag(r))])
  }
}
