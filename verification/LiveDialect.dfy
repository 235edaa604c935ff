/** The untagged frames of a live daemon reach each caller as the variant it matches on. */
module LiveDialect {
  import opened Wrappers
  import opened Json
  import opened Protocol
  import opened Decode
  import opened Encode
  import opened Correlation
  import NamedRows
  import opened Spellings
  import TaggedRoundTrip

  function NonEmpty(o: Option<string>): Option<string> {
    if o == Some("") then None else o
  }

  /** Live pages leave out an empty `cont_id` and an `is_done` that is false. */
  function LiveHead(q: QueryBody): Fields {
    Put(Put(map["id" := Str(q.id), "success" := Bool(q.success), "has_results" := Bool(q.hasResults),
                "update_count" := Int(q.updateCount)],
        "cont_id", if q.contId == Some("") then None else StringOpt(q.contId)),
        "is_done", if q.isDone then Some(Bool(true)) else None)
  }

  /** A page whose rows are spelled as `rows`: objects, arrays, or anything else. */
  function PageSpelled(q: QueryBody, rows: seq<Json>): Fields {
    LiveHead(q) + RowsSpelled(q, rows) + StatusFields(q)
  }

  function LivePage(q: QueryBody): Fields {
    PageSpelled(q, MapSeq(RowJson, q.data))
  }

  /** How a live daemon spells a response; job-log messages are only ever sent tagged. */
  function LiveFields(r: Response): Fields
    requires !r.ClResult?
  {
    match r
    case QueryResult(q) => LivePage(q)
    case Error(e) => ErrorFields(e)
    case Connected(id, version, job) =>
      Put(map["id" := Str(id), "job" := Str(job), "success" := Bool(true), "execution_time" := Int(0)],
          "version", if version == "" then None else Some(Str(version)))
    case Pong(id) => map["id" := Str(id), "success" := Bool(true)]
    case Exited(id) => map["id" := Str(id), "success" := Bool(true)]
    case PreparedStatement(id, success, contId, executionTime) =>
      map["id" := Str(id), "success" := Bool(success), "cont_id" := Str(contId),
          "execution_time" := Float(executionTime), "is_done" := Bool(true)]
    case DbJob(id, success, job) => map["id" := Str(id), "success" := Bool(success), "job" := Str(job)]
    case Version(id, success, version) => map["id" := Str(id), "success" := Bool(success), "version" := Str(version)]
    case SqlClosed(id, success) => map["id" := Str(id), "success" := Bool(success)]
    case ConfigSet(id, success) => map["id" := Str(id), "success" := Bool(success)]
    case TraceData(id, success, tracedata) =>
      map["id" := Str(id), "success" := Bool(success), "tracedata" := Str(tracedata)]
    case DoveResult(id, success, vedata, vemetadata) =>
      Put(map["id" := Str(id), "success" := Bool(success), "vedata" := vedata], "vemetadata", vemetadata)
  }

  const DISCRIMINATORS := {
    "type", "success", "data", "has_results", "vedata", "vemetadata", "cont_id", "job", "version", "tracedata",
    "jtopentracedata"
  }

  /** Keys an extra field may not use: those that tell shapes apart and those of the body itself. */
  function OwnKeys(r: Response): set<string>
  {
    DISCRIMINATORS + {"id"} +
    match r
    case QueryResult(_) =>
      {"update_count", "is_done", "metadata", "execution_time", "error", "sqlcode", "sqlstate", "parameter_count",
       "output_parms", "sql_rc", "sql_state"}
    case Error(_) => {"sqlstate", "sql_state", "sqlcode", "sql_rc", "error"}
    case PreparedStatement(_, _, _, _) => {"execution_time"}
    case DoveResult(_, _, _, _) => {"result"}
    case _ => {}
  }

  predicate SameDiscriminators(m: Fields, n: Fields) {
    && Get(m, "type") == Get(n, "type") && Get(m, "success") == Get(n, "success")
    && Get(m, "data") == Get(n, "data") && Get(m, "has_results") == Get(n, "has_results")
    && Get(m, "vedata") == Get(n, "vedata") && Get(m, "vemetadata") == Get(n, "vemetadata")
    && Get(m, "cont_id") == Get(n, "cont_id") && Get(m, "job") == Get(n, "job")
    && Get(m, "version") == Get(n, "version") && Get(m, "tracedata") == Get(n, "tracedata")
    && Get(m, "jtopentracedata") == Get(n, "jtopentracedata")
  }

  lemma ExtrasDoNotDiscriminate(extras: Fields, m: Fields)
    requires extras.Keys !! DISCRIMINATORS
    ensures SameDiscriminators(extras + m, m)
  {
  }

  // ---- acknowledgements -----------------------------------------------------

  lemma BareIsPong(m: Fields, id: string)
    requires Get(m, "id") == Some(Str(id)) && SameDiscriminators(m, map["success" := Bool(true)])
    ensures DecodeValue(Obj(m)) == Ok(Pong(id))
  {
  }

  lemma BareHeard(extras: Fields, id: string)
    requires extras.Keys !! DISCRIMINATORS + {"id"}
    ensures DecodeValue(Obj(extras + map["id" := Str(id), "success" := Bool(true)])) == Ok(Pong(id))
  {
    var ack := map["id" := Str(id), "success" := Bool(true)];
    ExtrasDoNotDiscriminate(extras, ack);
    BareIsPong(extras + ack, id);
  }

  lemma ConnectedShape(m: Fields, r: Response)
    requires r.Connected? && Get(m, "id") == Some(Str(r.id)) && SameDiscriminators(m, LiveFields(r))
    ensures DecodeValue(Obj(m)) == Ok(r)
  {
  }

  lemma DbJobShape(m: Fields, r: Response)
    requires r.DbJob? && r.success && Get(m, "id") == Some(Str(r.id)) && SameDiscriminators(m, LiveFields(r))
    ensures DecodeValue(Obj(m)) == Ok(Connected(r.id, "", r.job))
  {
  }

  lemma TextShape(m: Fields, r: Response)
    requires (r.Version? || r.TraceData?) && r.success
    requires Get(m, "id") == Some(Str(r.id)) && SameDiscriminators(m, LiveFields(r))
    ensures DecodeValue(Obj(m)) == Ok(r)
  {
  }

  lemma PreparedShape(m: Fields, r: Response)
    requires r.PreparedStatement? && r.success
    requires Get(m, "id") == Some(Str(r.id)) && Get(m, "execution_time") == Some(Float(r.executionTime))
    requires SameDiscriminators(m, LiveFields(r))
    ensures DecodeValue(Obj(m)) == Ok(r)
  {
  }

  lemma DoveShape(m: Fields, r: Response)
    requires r.DoveResult? && Get(m, "id") == Some(Str(r.id)) && Get(m, "result") == None
    requires SameDiscriminators(m, LiveFields(r))
    ensures DecodeValue(Obj(m)) == Ok(TaggedRoundTrip.Canonical(r))
  {
  }

  // ---- failures -------------------------------------------------------------

  lemma ErrorUnderExtras(extras: Fields, m: Fields)
    requires extras.Keys !! {"id", "success", "sqlstate", "sql_state", "sqlcode", "sql_rc", "error", "job"}
    ensures DecodeErrorBody(extras + m) == DecodeErrorBody(m)
  {
    var n := extras + m;
    assert Get(n, "id") == Get(m, "id") && Get(n, "success") == Get(m, "success") && Get(n, "error") == Get(m, "error");
    assert Get(n, "sqlstate") == Get(m, "sqlstate") && Get(n, "sql_state") == Get(m, "sql_state");
    assert Get(n, "sqlcode") == Get(m, "sqlcode") && Get(n, "sql_rc") == Get(m, "sql_rc") &&
      Get(n, "job") == Get(m, "job");
  }

  lemma FailureRecognized(m: Fields)
    requires Get(m, "success") == Some(Bool(false)) && Get(m, "type") == None
    requires Get(m, "vedata") == Get(m, "vemetadata") == Get(m, "data") == Get(m, "has_results") == None
    requires DecodeErrorBody(m).Ok?
    ensures DecodeValue(Obj(m)) == Ok(Error(DecodeErrorBody(m).value))
  {
  }

  lemma FailureHeard(extras: Fields, e: ErrorBody)
    requires !e.success
    requires extras.Keys !! OwnKeys(Error(e))
    ensures DecodeValue(Obj(extras + ErrorFields(e))) == Ok(Error(e))
  {
    var m := ErrorFields(e);
    TaggedRoundTrip.ErrorReadsBack(e);
    FailureKeys(m, e);
    FailureUnderExtras(extras, m, e);
  }

  lemma FailureKeys(m: Fields, e: ErrorBody)
    requires m == ErrorFields(e)
    ensures Get(m, "success") == Some(Bool(e.success)) && Get(m, "type") == None
    ensures Get(m, "vedata") == Get(m, "vemetadata") == Get(m, "data") == Get(m, "has_results") == None
  {
  }

  lemma FailureUnderExtras(extras: Fields, m: Fields, e: ErrorBody)
    requires extras.Keys !! OwnKeys(Error(e))
    requires Get(m, "success") == Some(Bool(false)) && Get(m, "type") == None
    requires Get(m, "vedata") == Get(m, "vemetadata") == Get(m, "data") == Get(m, "has_results") == None
    requires DecodeErrorBody(m) == Ok(e)
    ensures DecodeValue(Obj(extras + m)) == Ok(Error(e))
  {
    ErrorUnderExtras(extras, m);
    ExtrasDoNotDiscriminate(extras, m);
    FailureRecognized(extras + m);
  }

  // ---- result pages ---------------------------------------------------------

  lemma LiveHeadEntries(a: Json, b: Json, c: Json, d: Json, e: Option<Json>, f: Option<Json>, m: Fields)
    requires m == Put(Put(map["id" := a, "success" := b, "has_results" := c, "update_count" := d], "cont_id", e),
      "is_done", f)
    ensures Get(m, "id") == Some(a) && Get(m, "success") == Some(b) && Get(m, "has_results") == Some(c)
    ensures Get(m, "update_count") == Some(d) && Get(m, "cont_id") == e && Get(m, "is_done") == f
    ensures m.Keys <= {"id", "success", "has_results", "update_count", "cont_id", "is_done"}
  {
  }

  lemma LiveHeadReadsBack(q: QueryBody, m: Fields)
    requires m == LiveHead(q)
    ensures m.Keys <= {"id", "success", "has_results", "update_count", "cont_id", "is_done"}
    ensures ReadHead(m) == Ok(QueryHead(q.id, q.success, q.hasResults, q.updateCount, NonEmpty(q.contId),
                                        if q.isDone then Some(true) else None))
  {
    LiveHeadEntries(Str(q.id), Bool(q.success), Bool(q.hasResults), Int(q.updateCount),
                    if q.contId == Some("") then None else StringOpt(q.contId),
                      if q.isDone then Some(Bool(true)) else None, m);
  }

  /** What the client holds after hearing page `q`. */
  function HeardPage(q: QueryBody): QueryBody {
    TaggedRoundTrip.CanonicalQuery(q).(
      contId := NonEmpty(q.contId),
      isDone := q.isDone || (!q.hasResults && q.data == []))
  }

  /** What is heard of a page whose rows are spelled as `rows`: the page they name, or the first of their defects. */
  function HeardAs(q: QueryBody, rows: seq<Json>): Result<QueryBody, DecodeError> {
    match NamedRows.Named(q.metadata.columns, rows)
    case Ok(data) => Ok(HeardPage(q.(data := data)))
    case Err(e) => Err(e)
  }

  lemma LivePageFrom(m: Fields, q: QueryBody, rows: seq<Json>)
    requires ReadHead(m) == Ok(QueryHead(q.id, q.success, q.hasResults, q.updateCount, NonEmpty(q.contId),
                                         if q.isDone then Some(true) else None))
    requires ReadRows(m) == Ok(QueryRows(q.metadata, rows, q.executionTime))
    requires ReadStatus(m) == Ok(QueryStatus(q.error, q.sqlcode, q.sqlstate, q.parameterCount,
                                             Encode.MapSeq(TaggedRoundTrip.CanonicalParameter, q.outputParms)))
    ensures DecodeQuery(m) == HeardAs(q, rows)
  {
  }

  lemma LivePageReadsBack(q: QueryBody, rows: seq<Json>)
    ensures DecodeQuery(PageSpelled(q, rows)) == HeardAs(q, rows)
  {
    var h, r, s := LiveHead(q), RowsSpelled(q, rows), StatusFields(q);
    LiveHeadReadsBack(q, h);
    TaggedRoundTrip.RowsReadBack(q, rows, r);
    TaggedRoundTrip.StatusReadsBack(q, s);
    TaggedRoundTrip.JoinedHead(h, r, s);
    TaggedRoundTrip.JoinedRows(h, r, s);
    TaggedRoundTrip.JoinedStatus(h, r, s);
    LivePageFrom(h + r + s, q, rows);
  }

  lemma PageUnderExtras(extras: Fields, m: Fields)
    requires extras.Keys !! {"id", "success", "has_results", "update_count", "cont_id", "is_done"}
    requires extras.Keys !! {"metadata", "data", "execution_time"}
    requires extras.Keys !! {"error", "sqlcode", "sqlstate", "parameter_count", "output_parms", "sql_rc", "sql_state"}
    ensures DecodeQuery(extras + m) == DecodeQuery(m)
  {
    TaggedRoundTrip.HeadLocal(extras + m, m);
    TaggedRoundTrip.RowsLocal(extras + m, m);
    TaggedRoundTrip.StatusLocal(extras + m, m);
  }

  lemma PageRecognized(m: Fields, page: Result<QueryBody, DecodeError>)
    requires Get(m, "type") == Get(m, "vedata") == Get(m, "vemetadata") == None && Get(m, "data").Some?
    requires DecodeQuery(m) == page
    ensures DecodeValue(Obj(m)) == if page.Ok? then Ok(QueryResult(page.value)) else Err(page.error)
  {
  }

  lemma JoinedPageKeys(h: Fields, r: Fields, s: Fields)
    requires h.Keys <= {"id", "success", "has_results", "update_count", "cont_id", "is_done"}
    requires r.Keys <= {"metadata", "data", "execution_time"} && "data" in r
    requires s.Keys <= {"error", "sqlcode", "sqlstate", "parameter_count", "output_parms"}
    ensures var m := h + r + s;
      Get(m, "type") == Get(m, "vedata") == Get(m, "vemetadata") == None && Get(m, "data").Some?
  {
  }

  lemma PlainPageHeard(extras: Fields, q: QueryBody, rows: seq<Json>)
    requires extras.Keys !! OwnKeys(QueryResult(q))
    ensures DecodeValue(Obj(extras + PageSpelled(q, rows))) == Wrapped(HeardAs(q, rows))
  {
    var m := PageSpelled(q, rows);
    LivePageReadsBack(q, rows);
    PageUnderExtras(extras, m);
    LiveHeadReadsBack(q, LiveHead(q));
    TaggedRoundTrip.StatusReadsBack(q, StatusFields(q));
    JoinedPageKeys(LiveHead(q), RowsSpelled(q, rows), StatusFields(q));
    ExtrasDoNotDiscriminate(extras, m);
    PageRecognized(extras + m, HeardAs(q, rows));
  }

  const PLAIN := Spellings.Names(false, false)

  lemma ExtrasStay(extras: Fields, m: Fields, names: Names)
    requires extras.Keys !! SPELLED_TWICE
    ensures extras + Respelled(m, names) == Respelled(extras + m, names)
  {
  }

  lemma RespelledAmong(extras: Fields, m: Fields, names: Names)
    requires extras.Keys !! SPELLED_TWICE && "sql_rc" !in m && "sql_state" !in m
    ensures DecodeValue(Obj(extras + Respelled(m, names))) == DecodeValue(Obj(extras + m))
  {
    ExtrasStay(extras, m, names);
    FrameRespelled(extras + m, names);
  }

  lemma PageNames(h: Fields, r: Fields, s: Fields)
    requires h.Keys <= {"id", "success", "has_results", "update_count", "cont_id", "is_done"}
    requires r.Keys <= {"metadata", "data", "execution_time"}
    requires s.Keys <= {"error", "sqlcode", "sqlstate", "parameter_count", "output_parms"}
    ensures "sql_rc" !in h + r + s && "sql_state" !in h + r + s
  {
  }

  lemma PlainPageNames(q: QueryBody, rows: seq<Json>)
    ensures "sql_rc" !in PageSpelled(q, rows) && "sql_state" !in PageSpelled(q, rows)
  {
    LiveHeadReadsBack(q, LiveHead(q));
    TaggedRoundTrip.StatusReadsBack(q, StatusFields(q));
    PageNames(LiveHead(q), RowsSpelled(q, rows), StatusFields(q));
  }

  /** A page is heard as its rows are spelled, whatever harmless keys surround it and by whichever names it goes. */
  lemma SpelledPageHeard(extras: Fields, q: QueryBody, rows: seq<Json>, names: Names)
    requires extras.Keys !! OwnKeys(QueryResult(q))
    ensures DecodeValue(Obj(extras + Respelled(PageSpelled(q, rows), names))) ==
      match HeardAs(q, rows)
      case Ok(page) => Ok(QueryResult(page))
      case Err(e) => Err(e)
  {
    PlainPageHeard(extras, q, rows);
    PlainPageNames(q, rows);
    RespelledAmong(extras, PageSpelled(q, rows), names);
  }

  lemma PageHeard(extras: Fields, q: QueryBody, names: Names)
    requires extras.Keys !! OwnKeys(QueryResult(q))
    ensures DecodeValue(Obj(extras + Respelled(LivePage(q), names))) == Ok(QueryResult(HeardPage(q)))
  {
    TaggedRoundTrip.ObjectRowsReadBack(q.metadata.columns, q.data, 0);
    SpelledPageHeard(extras, q, MapSeq(RowJson, q.data), names);
  }

  lemma FailureNames(e: ErrorBody, m: Fields)
    requires m == ErrorFields(e)
    ensures "sql_rc" !in m && "sql_state" !in m
  {
  }

  /** A failure is heard with its code and its state, by whichever names the daemon spells them. */
  lemma RespelledFailureHeard(extras: Fields, e: ErrorBody, names: Names)
    requires !e.success
    requires extras.Keys !! OwnKeys(Error(e))
    ensures DecodeValue(Obj(extras + Respelled(ErrorFields(e), names))) == Ok(Error(e))
  {
    FailureHeard(extras, e);
    FailureNames(e, ErrorFields(e));
    RespelledAmong(extras, ErrorFields(e), names);
  }

  // ---- pages with terse rows ------------------------------------------------

  function Cell(row: Fields, name: string): Json {
    if name in row then row[name] else Null
  }

  /** How a row is spelled for a request with `terse: true`: a value for each column, `null` where there is none. */
  function TerseCells(columns: seq<Column>, row: Fields): (cells: seq<Json>)
    ensures |cells| == |columns|
    ensures forall i :: 0 <= i < |columns| ==> cells[i] == Cell(row, columns[i].name)
  {
    seq(|columns|, i requires 0 <= i < |columns| => Cell(row, columns[i].name))
  }

  function TerseRows(columns: seq<Column>, rows: seq<Fields>): (r: seq<Json>)
    ensures |r| == |rows|
    ensures forall i :: 0 <= i < |rows| ==> r[i] == Arr(TerseCells(columns, rows[i]))
  {
    seq(|rows|, i requires 0 <= i < |rows| => Arr(TerseCells(columns, rows[i])))
  }

  function ColumnNames(columns: seq<Column>): set<string> {
    set c | c in columns :: c.name
  }

  /** The row cut down to the columns, and filled up to them. */
  function Filled(columns: seq<Column>, row: Fields): Fields {
    map name | name in ColumnNames(columns) :: Cell(row, name)
  }

  function FilledRows(columns: seq<Column>, rows: seq<Fields>): (r: seq<Fields>)
    ensures |r| == |rows|
    ensures forall i :: 0 <= i < |rows| ==> r[i] == Filled(columns, rows[i])
  {
    seq(|rows|, i requires 0 <= i < |rows| => Filled(columns, rows[i]))
  }

  lemma {:induction false} ZipFills(columns: seq<Column>, row: Fields, n: nat)
    requires n <= |columns|
    ensures NamedRows.Zip(columns, TerseCells(columns, row)[..n]) == Filled(columns[..n], row)
  {
    if n == 0 {
    } else {
      var cells := TerseCells(columns, row);
      assert cells[..n][..n - 1] == cells[..n - 1];
      ZipFills(columns, row, n - 1);
      assert columns[..n] == columns[..n - 1] + [columns[n - 1]];
    }
  }

  lemma TerseRowHeard(columns: seq<Column>, row: Fields)
    ensures NamedRows.Zip(columns, TerseCells(columns, row)) == Filled(columns, row)
  {
    ZipFills(columns, row, |columns|);
    assert TerseCells(columns, row)[..|columns|] == TerseCells(columns, row) && columns[..|columns|] == columns;
  }

  lemma TerseRowsHeard(columns: seq<Column>, rows: seq<Fields>)
    ensures NamedRows.Named(columns, TerseRows(columns, rows)) ==
      if columns == [] && rows != [] then Err(TerseRowsWithoutColumns) else Ok(FilledRows(columns, rows))
  {
    var wire := TerseRows(columns, rows);
    if columns == [] && rows != [] {
      NamedRows.FirstDefect(columns, wire, 0);
    } else {
      forall i | 0 <= i < |rows|
        ensures NamedRows.Defect(columns, i, wire[i]) == None
        ensures FilledRows(columns, rows)[i] == NamedRows.NamedRow(columns, wire[i])
      {
        TerseRowHeard(columns, rows[i]);
      }
      NamedRows.NoDefect(columns, wire, FilledRows(columns, rows));
    }
  }

  /** Filling changes nothing exactly if each row has the columns' names for its keys. */
  lemma FillingKeeps(columns: seq<Column>, rows: seq<Fields>)
    ensures FilledRows(columns, rows) == rows <==> forall row :: row in rows ==> row.Keys == ColumnNames(columns)
  {
    forall i | 0 <= i < |rows| ensures Filled(columns, rows[i]) == rows[i] <==> rows[i].Keys == ColumnNames(columns) {
      assert Filled(columns, rows[i]).Keys == ColumnNames(columns);
    }
  }

  // ---- composition with the dispatcher's remapping --------------------------

  /** The responses a live daemon spells; a failure is an error, a page, or an explain tree. */
  predicate Spoken(r: Response) {
    match r
    case PreparedStatement(_, success, _, _) => success
    case SqlClosed(_, success) => success
    case Version(_, success, _) => success
    case DbJob(_, success, _) => success
    case ConfigSet(_, success) => success
    case TraceData(_, success, _) => success
    case Error(e) => !e.success
    case ClResult(_, _, _) => false
    case _ => true
  }

  /** The response that the caller of each request waits for. */
  predicate Awaits(request: Request, r: Response) {
    match request
    case Connect(_, _, _, _) => r.Connected?
    case PingRequest(_) => r.Pong?
    case GetDbJob(_) => r.DbJob?
    case GetVersion(_) => r.Version?
    case PrepareSql(_, _, _) => r.PreparedStatement?
    case SetConfig(_, _, _) => r.ConfigSet?
    case SqlClose(_, _) => r.SqlClosed?
    case Exit(_) => r.Exited?
    case GetTraceData(_) => r.TraceData?
    case Sql(_, _, _, _, _) => r.QueryResult? || r.DoveResult?
    case PrepareSqlExecute(_, _, _, _, _) => r.QueryResult? || r.DoveResult?
    case Execute(_, _, _, _, _) => r.QueryResult? || r.DoveResult?
    case SqlMore(_, _, _) => r.QueryResult? || r.DoveResult?
    case Cl(_, _, _) => r.QueryResult? || r.DoveResult?
    case Dove(_, _, _, _, _) => r.QueryResult? || r.DoveResult?
  }

  /** What a live daemon may answer: what is awaited, or an error. */
  predicate Answers(request: Request, r: Response) {
    Spoken(r) && (Awaits(request, r) || r.Error?)
  }

  function Heard(r: Response): Response {
    if r.QueryResult? then QueryResult(HeardPage(r.q)) else TaggedRoundTrip.Canonical(r)
  }

  /**
    The payload a caller gets is the one that was sent, except where the live
    spelling cannot say it: present `null`s, an empty `cont_id`, and a page that is
    neither last nor part of a result set.
   */
  lemma HeardIsSent(r: Response)
    ensures Heard(r) == r <==>
      && TaggedRoundTrip.NoPresentNull(r)
      && (r.QueryResult? ==> r.q.contId != Some("") && (r.q.isDone || r.q.hasResults || r.q.data != []))
  {
    TaggedRoundTrip.CanonicalFixesExactly(r);
  }

  /** What decoding alone makes of the frame, before the dispatcher knows what was asked. */
  function Decoded(r: Response): Response
  {
    match r
    case DbJob(id, _, job) => Connected(id, "", job)
    case Exited(id) => Pong(id)
    case SqlClosed(id, _) => Pong(id)
    case ConfigSet(id, _) => Pong(id)
    case _ => Heard(r)
  }

  lemma RecordHeard(extras: Fields, r: Response)
    requires r.Connected? || ((r.DbJob? || r.Version? || r.TraceData?) && r.success)
    requires extras.Keys !! OwnKeys(r)
    ensures DecodeValue(Obj(extras + LiveFields(r))) == Ok(Decoded(r))
  {
    var m := extras + LiveFields(r);
    ExtrasDoNotDiscriminate(extras, LiveFields(r));
    if r.Connected? {
      ConnectedShape(m, r);
    } else if r.DbJob? {
      DbJobShape(m, r);
    } else {
      TextShape(m, r);
    }
  }

  lemma PreparedHeard(extras: Fields, r: Response, own: Fields)
    requires r.PreparedStatement? && r.success && own == LiveFields(r)
    requires extras.Keys !! OwnKeys(r)
    ensures DecodeValue(Obj(extras + own)) == Ok(r)
  {
    ExtrasDoNotDiscriminate(extras, own);
    assert Get(own, "execution_time") == Some(Float(r.executionTime)) && Get(own, "id") == Some(Str(r.id));
    PreparedShape(extras + own, r);
  }

  lemma DoveHeard(extras: Fields, r: Response, own: Fields)
    requires r.DoveResult? && own == LiveFields(r)
    requires extras.Keys !! OwnKeys(r)
    ensures DecodeValue(Obj(extras + own)) == Ok(TaggedRoundTrip.Canonical(r))
  {
    ExtrasDoNotDiscriminate(extras, own);
    assert Get(own, "result") == None && Get(own, "id") == Some(Str(r.id));
    DoveShape(extras + own, r);
  }

  lemma PlainFrameDecodes(r: Response, extras: Fields)
    requires Spoken(r) && extras.Keys !! OwnKeys(r)
    ensures DecodeValue(Obj(extras + LiveFields(r))) == Ok(Decoded(r))
  {
    match r
    case QueryResult(q) => PageHeard(extras, q, PLAIN);
    case Error(e) => FailureHeard(extras, e);
    case PreparedStatement(_, _, _, _) => PreparedHeard(extras, r, LiveFields(r));
    case DoveResult(_, _, _, _) => DoveHeard(extras, r, LiveFields(r));
    case Connected(_, _, _) => RecordHeard(extras, r);
    case DbJob(_, _, _) => RecordHeard(extras, r);
    case Version(_, _, _) => RecordHeard(extras, r);
    case TraceData(_, _, _) => RecordHeard(extras, r);
    case Pong(id) => BareHeard(extras, id);
    case Exited(id) => BareHeard(extras, id);
    case SqlClosed(id, _) => BareHeard(extras, id);
    case ConfigSet(id, _) => BareHeard(extras, id);
    case ClResult(_, _, _) =>
  }

  /** A live frame: the fields of `r`, under the names the daemon chooses, among `extras`. */
  function LiveFrame(r: Response, names: Names, extras: Fields): Json
    requires !r.ClResult?
  {
    Obj(extras + Respelled(LiveFields(r), names))
  }

  lemma OnlyFailuresRespelled(r: Response, names: Names)
    requires !r.ClResult? && !r.Error? && !r.QueryResult?
    ensures Respelled(LiveFields(r), names) == LiveFields(r)
  {
  }

  /** Each live frame decodes to the shape it shares with others, however it is spelled and whatever is around it. */
  lemma LiveFrameDecodes(r: Response, names: Names, extras: Fields)
    requires Spoken(r) && extras.Keys !! OwnKeys(r)
    ensures DecodeValue(LiveFrame(r, names, extras)) == Ok(Decoded(r))
  {
    match r
    case QueryResult(q) => PageHeard(extras, q, names);
    case Error(e) => RespelledFailureHeard(extras, e, names);
    case _ =>
      PlainFrameDecodes(r, extras);
      OnlyFailuresRespelled(r, names);
  }

  lemma DecodedMeans(request: Request, r: Response)
    requires Answers(request, r)
    ensures Meant(request, Decoded(r)) == Heard(r)
  {
  }

  /**
    For every request and every answer a live daemon may give to it, whatever
    else is in the frame and by whichever names: the caller gets the variant it
    matches on, with its id and payload.
   */
  lemma LiveAnswerReachesCaller(request: Request, r: Response, names: Names, extras: Fields, v: Json)
    requires Answers(request, r) && extras.Keys !! OwnKeys(r) && v == LiveFrame(r, names, extras)
    ensures Answer(KindOf(request), Arrive(v)) == Ok(Heard(r))
    ensures ResponseId(Heard(r)) == ResponseId(r)
  {
    LiveFrameDecodes(r, names, extras);
    RemapMeans(request, Decoded(r));
    DecodedMeans(request, r);
  }

  /** The requests that open a result set, or go on with one. */
  predicate AwaitsPage(request: Request) {
    request.Sql? || request.PrepareSqlExecute? || request.Execute? || request.SqlMore? || request.Cl?
  }

  /** A result set's caller gets what its page is heard as. */
  lemma PageAnswered(request: Request, v: Json, page: Result<QueryBody, DecodeError>)
    requires AwaitsPage(request)
    requires DecodeValue(v) == if page.Ok? then Ok(QueryResult(page.value)) else Err(page.error)
    ensures Answer(KindOf(request), Arrive(v)) ==
      if page.Ok? then Ok(QueryResult(page.value)) else Err(DecodeFailure(page.error))
  {
  }

  /** A page answered to `terse: true`, as its caller hears it. */
  function HeardTerse(q: QueryBody): Outcome {
    if q.metadata.columns == [] && q.data != [] then Err(Protocol(MissingColumns))
    else Ok(QueryResult(HeardPage(q.(data := FilledRows(q.metadata.columns, q.data)))))
  }

  lemma HeardAsTerse(q: QueryBody, page: Result<QueryBody, DecodeError>)
    requires page == HeardAs(q, TerseRows(q.metadata.columns, q.data))
    ensures HeardTerse(q) == if page.Ok? then Ok(QueryResult(page.value)) else Err(DecodeFailure(page.error))
  {
    TerseRowsHeard(q.metadata.columns, q.data);
  }

  lemma TerseAnswer(request: Request, q: QueryBody, names: Names, extras: Fields, v: Json)
    requires AwaitsPage(request) && extras.Keys !! OwnKeys(QueryResult(q))
    requires v == Obj(extras + Respelled(PageSpelled(q, TerseRows(q.metadata.columns, q.data)), names))
    ensures Answer(KindOf(request), Arrive(v)) == HeardTerse(q)
  {
    var page := HeardAs(q, TerseRows(q.metadata.columns, q.data));
    SpelledPageHeard(extras, q, TerseRows(q.metadata.columns, q.data), names);
    PageAnswered(request, v, page);
    HeardAsTerse(q, page);
  }

  lemma HeardAlike(q: QueryBody)
    ensures HeardTerse(q) == Ok(QueryResult(HeardPage(q))) <==>
      (q.metadata.columns != [] || q.data == []) && FilledRows(q.metadata.columns, q.data) == q.data
  {
    var filled := q.(data := FilledRows(q.metadata.columns, q.data));
    assert HeardPage(filled) == HeardPage(q) <==> filled.data == q.data;
  }

  /**
    A page answered to `terse: true` reaches its caller as the same page with
    object rows would, if and only if it has no rows, or has columns and
    their names are the keys of each row.
   */
  lemma TersePageReachesCaller(request: Request, q: QueryBody, names: Names, extras: Fields, v: Json)
    requires AwaitsPage(request) && extras.Keys !! OwnKeys(QueryResult(q))
    requires v == Obj(extras + Respelled(PageSpelled(q, TerseRows(q.metadata.columns, q.data)), names))
    ensures Answer(KindOf(request), Arrive(v)) == Ok(Heard(QueryResult(q))) <==>
      || q.data == []
      || (q.metadata.columns != [] && forall row :: row in q.data ==> row.Keys == ColumnNames(q.metadata.columns))
  {
    TerseAnswer(request, q, names, extras, v);
    HeardAlike(q);
    FillingKeeps(q.metadata.columns, q.data);
  }

  /** A bare acknowledgement reaches the caller of each request as what it acknowledges. */
  lemma BareAckReachesCaller(request: Request, id: string, extras: Fields)
    requires extras.Keys !! DISCRIMINATORS + {"id"}
    ensures Answer(KindOf(request), Arrive(Obj(extras + map["id" := Str(id), "success" := Bool(true)]))) ==
      Ok(Acknowledged(request, id))
  {
    BareHeard(extras, id);
    RemapMeans(request, Pong(id));
  }
}
