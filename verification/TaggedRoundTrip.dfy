/** Decoding a tagged frame undoes encoding it, up to values the wire cannot tell apart. */
module TaggedRoundTrip {
  import opened Wrappers
  import opened Json
  import opened Protocol
  import opened Decode
  import opened Encode
  import NamedRows

  function CanonicalParameter(p: ParameterResult): ParameterResult {
    if p.value == Some(Null) then p.(value := None) else p
  }

  function CanonicalQuery(q: QueryBody): QueryBody {
    q.(outputParms := MapSeq(CanonicalParameter, q.outputParms))
  }

  // ---- lists of records -----------------------------------------------------

  lemma {:induction false} EachReadsBack<T>(items: seq<T>, out: seq<T>, write: T -> Json,
                                           read: Json -> Result<T, DecodeError>)
    requires |out| == |items|
    requires forall i :: 0 <= i < |items| ==> read(write(items[i])) == Ok(out[i])
    ensures Each(MapSeq(write, items), read) == Ok(out)
  {
    if items == [] {
    } else {
      EachReadsBack(items[1..], out[1..], write, read);
      assert MapSeq(write, items)[1..] == MapSeq(write, items[1..]);
      assert out == [out[0]] + out[1..];
    }
  }

  /** Row objects pass through the naming of rows unchanged. */
  lemma {:induction false} ObjectRowsReadBack(columns: seq<Column>, rows: seq<Fields>, idx: nat)
    ensures NamedRows.NamedFrom(columns, MapSeq(RowJson, rows), idx) == Ok(rows)
  {
    if rows == [] {
    } else {
      ObjectRowsReadBack(columns, rows[1..], idx + 1);
      assert MapSeq(RowJson, rows)[1..] == MapSeq(RowJson, rows[1..]);
      assert rows == [rows[0]] + rows[1..];
    }
  }

  // ---- nested records -------------------------------------------------------

  lemma ColumnEntries(a: Json, b: Json, c: Json, d: Json, e: Json, f: Json, m: Fields)
    requires m == map["name" := a, "label" := b, "type" := c, "display_size" := d, "precision" := e, "scale" := f]
    ensures Get(m, "name") == Some(a) && Get(m, "label") == Some(b) && Get(m, "type") == Some(c)
    ensures Get(m, "display_size") == Some(d) && Get(m, "precision") == Some(e) && Get(m, "scale") == Some(f)
  {
  }

  lemma ColumnReadsBack(c: Column)
    ensures AsColumn(ColumnJson(c)) == Ok(c)
  {
    ColumnEntries(Str(c.name), OptString(c.lbl), OptString(c.typeName), OptInt(c.displaySize), OptInt(c.precision),
                  OptInt(c.scale), ColumnFields(c));
  }

  lemma ParameterDetailReadsBack(p: ParameterDetail)
    ensures AsParameterDetail(ParameterDetailJson(p)) == Ok(p)
  {
  }

  lemma ParameterResultEntries(a: Json, b: Json, c: Json, d: Option<Json>, e: Json, f: Option<Json>, g: Option<Json>,
    m: Fields)
    requires m == Put(Put(Put(map["index" := a, "type" := b, "precision" := c, "name" := e], "scale", d), "ccsid", f),
      "value", g)
    ensures Get(m, "index") == Some(a) && Get(m, "type") == Some(b) && Get(m, "precision") == Some(c)
    ensures Get(m, "scale") == d && Get(m, "name") == Some(e) && Get(m, "ccsid") == f && Get(m, "value") == g
  {
  }

  lemma ParameterResultReadsBack(p: ParameterResult)
    ensures AsParameterResult(ParameterResultJson(p)) == Ok(CanonicalParameter(p))
  {
    ParameterResultEntries(Int(p.index), Str(p.typeName), Int(p.precision), IntOpt(p.scale), Str(p.name),
                           IntOpt(p.ccsid), p.value, ParameterResultFields(p));
  }

  lemma ClMessageReadsBack(c: ClMessage)
    ensures AsClMessage(ClMessageJson(c)) == Ok(c)
  {
  }

  lemma MetaDataEntries(a: Json, b: Json, c: Option<Json>, d: Option<Json>, m: Fields)
    requires m == Put(Put(map["column_count" := a, "columns" := b], "job", c), "parameters", d)
    ensures Get(m, "column_count") == Some(a) && Get(m, "columns") == Some(b)
    ensures Get(m, "job") == c && Get(m, "parameters") == d
  {
  }

  lemma ColumnsReadBack(columns: seq<Column>)
    ensures Each(MapSeq(ColumnJson, columns), AsColumn) == Ok(columns)
  {
    forall i | 0 <= i < |columns| ensures AsColumn(ColumnJson(columns[i])) == Ok(columns[i]) {
      ColumnReadsBack(columns[i]);
    }
    EachReadsBack(columns, columns, ColumnJson, AsColumn);
  }

  lemma ParametersReadBack(parameters: seq<ParameterDetail>)
    ensures Each(MapSeq(ParameterDetailJson, parameters), AsParameterDetail) == Ok(parameters)
  {
    forall i | 0 <= i < |parameters|
      ensures AsParameterDetail(ParameterDetailJson(parameters[i])) == Ok(parameters[i])
    {
      ParameterDetailReadsBack(parameters[i]);
    }
    EachReadsBack(parameters, parameters, ParameterDetailJson, AsParameterDetail);
  }

  lemma OutputParmsReadBack(parms: seq<ParameterResult>)
    ensures Each(MapSeq(ParameterResultJson, parms), AsParameterResult) == Ok(MapSeq(CanonicalParameter, parms))
  {
    forall i | 0 <= i < |parms|
      ensures AsParameterResult(ParameterResultJson(parms[i])) == Ok(CanonicalParameter(parms[i]))
    {
      ParameterResultReadsBack(parms[i]);
    }
    EachReadsBack(parms, MapSeq(CanonicalParameter, parms), ParameterResultJson, AsParameterResult);
  }

  lemma ClMessagesReadBack(messages: seq<ClMessage>)
    ensures Each(MapSeq(ClMessageJson, messages), AsClMessage) == Ok(messages)
  {
    forall i | 0 <= i < |messages| ensures AsClMessage(ClMessageJson(messages[i])) == Ok(messages[i]) {
      ClMessageReadsBack(messages[i]);
    }
    EachReadsBack(messages, messages, ClMessageJson, AsClMessage);
  }

  lemma MetaDataFrom(m: Fields, d: QueryMetaData, columns: seq<Json>, parameters: seq<Json>)
    requires Get(m, "column_count") == Some(Int(d.columnCount)) && Get(m, "columns") == Some(Arr(columns))
    requires Get(m, "job") == StringOpt(d.job) && Get(m, "parameters") == ListOpt(parameters)
    requires Each(columns, AsColumn) == Ok(d.columns) && Each(parameters, AsParameterDetail) == Ok(d.parameters)
    ensures AsMetaData(Obj(m)) == Ok(d)
  {
  }

  lemma MetaDataReadsBack(d: QueryMetaData)
    ensures AsMetaData(Obj(MetaDataFields(d))) == Ok(d)
  {
    var m, columns, parameters :=
      MetaDataFields(d), MapSeq(ColumnJson, d.columns), MapSeq(ParameterDetailJson, d.parameters);
    ColumnsReadBack(d.columns);
    ParametersReadBack(d.parameters);
    MetaDataEntries(Int(d.columnCount), Arr(columns), StringOpt(d.job), ListOpt(parameters), m);
    MetaDataFrom(m, d, columns, parameters);
  }

  lemma ErrorEntries(a: Json, b: Json, c: Json, d: Json, e: Json, f: Json, m: Fields)
    requires m == map["id" := a, "success" := b, "sqlstate" := c, "sqlcode" := d, "error" := e, "job" := f]
    ensures Get(m, "id") == Some(a) && Get(m, "success") == Some(b) && Get(m, "sqlstate") == Some(c)
    ensures Get(m, "sqlcode") == Some(d) && Get(m, "error") == Some(e) && Get(m, "job") == Some(f)
    ensures Get(m, "sql_state") == Get(m, "sql_rc") == None
  {
  }

  lemma ErrorReadsBack(e: ErrorBody)
    ensures DecodeErrorBody(ErrorFields(e)) == Ok(e)
  {
    ErrorEntries(Str(e.id), Bool(e.success), OptString(e.sqlstate), OptInt(e.sqlcode), OptString(e.error),
                 OptString(e.job), ErrorFields(e));
  }

  // ---- result pages ---------------------------------------------------------

  lemma HeadReadsBack(q: QueryBody, m: Fields)
    requires m == HeadFields(q)
    ensures ReadHead(m) == Ok(QueryHead(q.id, q.success, q.hasResults, q.updateCount, q.contId, Some(q.isDone)))
  {
  }

  lemma RowsReadBack(q: QueryBody, rows: seq<Json>, m: Fields)
    requires m == RowsSpelled(q, rows)
    ensures ReadRows(m) == Ok(QueryRows(q.metadata, rows, q.executionTime))
  {
    MetaDataReadsBack(q.metadata);
  }

  lemma StatusEntries(a: Option<Json>, b: Option<Json>, c: Option<Json>, d: Option<Json>, e: Option<Json>, m: Fields)
    requires m == Put(Put(Put(Put(Put(map[], "error", a), "sqlcode", b), "sqlstate", c), "parameter_count", d),
      "output_parms", e)
    ensures Get(m, "error") == a && Get(m, "sqlcode") == b && Get(m, "sqlstate") == c
    ensures Get(m, "parameter_count") == d && Get(m, "output_parms") == e
    ensures m.Keys <= {"error", "sqlcode", "sqlstate", "parameter_count", "output_parms"}
  {
  }

  lemma StatusFrom(m: Fields, t: QueryStatus, parms: seq<Json>)
    requires Get(m, "error") == StringOpt(t.error) && Get(m, "sqlcode") == IntOpt(t.sqlcode)
    requires Get(m, "sqlstate") == StringOpt(t.sqlstate) && Get(m, "parameter_count") == IntOpt(t.parameterCount)
    requires Get(m, "output_parms") == ListOpt(parms) && Each(parms, AsParameterResult) == Ok(t.outputParms)
    requires Get(m, "sql_rc") == Get(m, "sql_state") == None
    ensures ReadStatus(m) == Ok(t)
  {
  }

  lemma StatusReadsBack(q: QueryBody, m: Fields)
    requires m == StatusFields(q)
    ensures m.Keys <= {"error", "sqlcode", "sqlstate", "parameter_count", "output_parms"}
    ensures ReadStatus(m) == Ok(QueryStatus(q.error, q.sqlcode, q.sqlstate, q.parameterCount,
      MapSeq(CanonicalParameter, q.outputParms)))
  {
    var parms := MapSeq(ParameterResultJson, q.outputParms);
    StatusEntries(StringOpt(q.error), IntOpt(q.sqlcode), StringOpt(q.sqlstate), IntOpt(q.parameterCount),
      ListOpt(parms), m);
    OutputParmsReadBack(q.outputParms);
    StatusFrom(m, QueryStatus(q.error, q.sqlcode, q.sqlstate, q.parameterCount,
      MapSeq(CanonicalParameter, q.outputParms)), parms);
  }

  /** Reading a part of a page only looks at that part's keys. */
  lemma HeadLocal(m: Fields, n: Fields)
    requires Get(m, "id") == Get(n, "id") && Get(m, "success") == Get(n, "success")
    requires Get(m, "has_results") == Get(n, "has_results") && Get(m, "update_count") == Get(n, "update_count")
    requires Get(m, "cont_id") == Get(n, "cont_id") && Get(m, "is_done") == Get(n, "is_done")
    ensures ReadHead(m) == ReadHead(n)
  {
  }

  lemma RowsLocal(m: Fields, n: Fields)
    requires Get(m, "metadata") == Get(n, "metadata") && Get(m, "data") == Get(n, "data")
    requires Get(m, "execution_time") == Get(n, "execution_time")
    ensures ReadRows(m) == ReadRows(n)
  {
  }

  lemma StatusLocal(m: Fields, n: Fields)
    requires Get(m, "error") == Get(n, "error") && Get(m, "parameter_count") == Get(n, "parameter_count")
    requires Get(m, "sqlcode") == Get(n, "sqlcode") && Get(m, "sql_rc") == Get(n, "sql_rc")
    requires Get(m, "sqlstate") == Get(n, "sqlstate") && Get(m, "sql_state") == Get(n, "sql_state")
    requires Get(m, "output_parms") == Get(n, "output_parms")
    ensures ReadStatus(m) == ReadStatus(n)
  {
  }

  lemma JoinedHead(h: Fields, r: Fields, s: Fields)
    requires r.Keys <= {"metadata", "data", "execution_time"}
    requires s.Keys <= {"error", "sqlcode", "sqlstate", "parameter_count", "output_parms"}
    ensures ReadHead(h + r + s) == ReadHead(h)
  {
    HeadLocal(h + r + s, h);
  }

  lemma JoinedRows(h: Fields, r: Fields, s: Fields)
    requires h.Keys <= {"id", "success", "has_results", "update_count", "cont_id", "is_done"}
    requires s.Keys <= {"error", "sqlcode", "sqlstate", "parameter_count", "output_parms"}
    ensures ReadRows(h + r + s) == ReadRows(r)
  {
    RowsLocal(h + r + s, r);
  }

  lemma JoinedStatus(h: Fields, r: Fields, s: Fields)
    requires h.Keys <= {"id", "success", "has_results", "update_count", "cont_id", "is_done"}
    requires r.Keys <= {"metadata", "data", "execution_time"}
    ensures ReadStatus(h + r + s) == ReadStatus(s)
  {
    StatusLocal(h + r + s, s);
  }

  lemma PageFrom(m: Fields, q: QueryBody, rows: seq<Json>)
    requires ReadHead(m) == Ok(QueryHead(q.id, q.success, q.hasResults, q.updateCount, q.contId, Some(q.isDone)))
    requires ReadRows(m) == Ok(QueryRows(q.metadata, rows, q.executionTime))
    requires ReadStatus(m) == Ok(QueryStatus(q.error, q.sqlcode, q.sqlstate, q.parameterCount, q.outputParms))
    requires NamedRows.Named(q.metadata.columns, rows) == Ok(q.data)
    ensures DecodeQuery(m) == Ok(q)
  {
  }

  lemma QueryReadsBack(q: QueryBody)
    ensures DecodeQuery(QueryFields(q)) == Ok(CanonicalQuery(q))
  {
    var h, r, s := HeadFields(q), RowsFields(q), StatusFields(q);
    HeadReadsBack(q, h);
    RowsReadBack(q, MapSeq(RowJson, q.data), r);
    StatusReadsBack(q, s);
    JoinedHead(h, r, s);
    JoinedRows(h, r, s);
    JoinedStatus(h, r, s);
    ObjectRowsReadBack(q.metadata.columns, q.data, 0);
    PageFrom(h + r + s, CanonicalQuery(q), MapSeq(RowJson, q.data));
  }

  // ---- every variant --------------------------------------------------------

  /** The only values a tagged frame cannot tell apart are an absent value and a present `null`. */
  function Canonical(r: Response): Response {
    match r
    case QueryResult(q) => QueryResult(CanonicalQuery(q))
    case DoveResult(_, _, _, vemetadata) => if vemetadata == Some(Null) then r.(vemetadata := None) else r
    case _ => r
  }

  predicate NoPresentNull(r: Response) {
    match r
    case QueryResult(q) => forall p :: p in q.outputParms ==> p.value != Some(Null)
    case DoveResult(_, _, _, vemetadata) => vemetadata != Some(Null)
    case _ => true
  }

  lemma CanonicalFixesExactly(r: Response)
    ensures Canonical(r) == r <==> NoPresentNull(r)
  {
    if r.QueryResult? {
      var parms := r.q.outputParms;
      if NoPresentNull(r) {
        assert MapSeq(CanonicalParameter, parms) == parms;
      } else {
        var p :| p in parms && p.value == Some(Null);
        var i :| 0 <= i < |parms| && parms[i] == p;
        assert MapSeq(CanonicalParameter, parms)[i] != parms[i];
      }
    }
  }

  lemma AckReadsBack(r: Response, m: Fields)
    requires r.Connected? || r.Pong? || r.Exited? || r.SqlClosed? || r.ConfigSet?
    requires m == Body(r)
    ensures "type" !in m && DecodeTagged(Tag(r), m) == Ok(r)
  {
  }

  lemma TextReadsBack(r: Response, m: Fields)
    requires r.Version? || r.DbJob? || r.TraceData? || r.PreparedStatement?
    requires m == Body(r)
    ensures "type" !in m && DecodeTagged(Tag(r), m) == Ok(r)
  {
  }

  lemma DoveReadsBack(r: Response, m: Fields)
    requires r.DoveResult? && m == Body(r)
    ensures "type" !in m && DecodeTagged(Tag(r), m) == Ok(Canonical(r))
  {
  }

  lemma ClResultFrom(m: Fields, id: string, success: bool, messages: seq<ClMessage>, items: seq<Json>)
    requires Get(m, "id") == Some(Str(id)) && Get(m, "success") == Some(Bool(success)) &&
      Get(m, "messages") == Some(Arr(items))
    requires Each(items, AsClMessage) == Ok(messages)
    ensures DecodeClResult(m) == Ok(ClResult(id, success, messages))
  {
  }

  lemma ClResultReadsBack(r: Response, m: Fields)
    requires r.ClResult? && m == Body(r)
    ensures "type" !in m && DecodeTagged(Tag(r), m) == Ok(r)
  {
    var items := MapSeq(ClMessageJson, r.messages);
    ClMessagesReadBack(r.messages);
    ClResultFrom(m, r.id, r.success, r.messages, items);
  }

  lemma JoinedHasNoTag(h: Fields, r: Fields, s: Fields)
    requires h.Keys <= {"id", "success", "has_results", "update_count", "cont_id", "is_done"}
    requires r.Keys <= {"metadata", "data", "execution_time"}
    requires s.Keys <= {"error", "sqlcode", "sqlstate", "parameter_count", "output_parms"}
    ensures "type" !in h + r + s
  {
  }

  lemma PageFromTag(m: Fields, q: QueryBody)
    requires DecodeQuery(m) == Ok(q)
    ensures DecodeTagged("query_result", m) == Ok(QueryResult(q))
  {
  }

  lemma PageReadsBack(r: Response, m: Fields)
    requires r.QueryResult? && m == QueryFields(r.q)
    ensures "type" !in m && DecodeTagged("query_result", m) == Ok(Canonical(r))
  {
    QueryReadsBack(r.q);
    PageFromTag(m, CanonicalQuery(r.q));
    StatusReadsBack(r.q, StatusFields(r.q));
    JoinedHasNoTag(HeadFields(r.q), RowsFields(r.q), StatusFields(r.q));
  }

  lemma FailureReadsBack(r: Response, m: Fields)
    requires r.Error? && m == ErrorFields(r.e)
    ensures "type" !in m && DecodeTagged("error", m) == Ok(r)
  {
    ErrorReadsBack(r.e);
  }

  lemma BodyReadsBack(r: Response)
    ensures "type" !in Body(r) && DecodeTagged(Tag(r), Body(r)) == Ok(Canonical(r))
  {
    match r
    case QueryResult(_) => PageReadsBack(r, Body(r));
    case ClResult(_, _, _) => ClResultReadsBack(r, Body(r));
    case Error(_) => FailureReadsBack(r, Body(r));
    case DoveResult(_, _, _, _) => DoveReadsBack(r, Body(r));
    case Version(_, _, _) => TextReadsBack(r, Body(r));
    case DbJob(_, _, _) => TextReadsBack(r, Body(r));
    case TraceData(_, _, _) => TextReadsBack(r, Body(r));
    case PreparedStatement(_, _, _, _) => TextReadsBack(r, Body(r));
    case _ => AckReadsBack(r, Body(r));
  }

  /** Decoding a tagged encoding gives the response back, up to present `null`s. */
  lemma TaggedRoundTrip(r: Response)
    ensures DecodeValue(EncodeTagged(r)) == Ok(Canonical(r))
    ensures DecodeValue(EncodeTagged(r)) == Ok(r) <==> NoPresentNull(r)
  {
    var m, t := Body(r), Str(Tag(r));
    BodyReadsBack(r);
    assert m["type" := t] - {"type"} == m;
    CanonicalFixesExactly(r);
  }
}
