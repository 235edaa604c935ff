/** The wire messages: what the client may send and what the daemon may answer. */
module Protocol {
  import opened Wrappers
  import opened Json

  datatype Request =
    | Connect(id: string, technique: string, application: string, props: Option<string>)
    | Sql(id: string, sql: string, rows: Option<u32>, parameters: Option<seq<Json>>, terse: Option<bool>)
    | PrepareSql(id: string, sql: string, terse: Option<bool>)
    | PrepareSqlExecute(id: string, sql: string, sets: Option<seq<seq<Json>>>, rows: Option<u32>, terse: Option<bool>)
    | Execute(id: string, contId: string, parameters: Option<seq<Json>>, rows: Option<u32>, terse: Option<bool>)
    | SqlMore(id: string, contId: string, pageSize: u32)
    | SqlClose(id: string, contId: string)
    | Cl(id: string, cmd: string, terse: Option<bool>)
    | GetVersion(id: string)
    | GetDbJob(id: string)
    | SetConfig(id: string, traceLevel: string, traceDest: string)
    | GetTraceData(id: string)
    | Dove(id: string, sql: string, run: Option<bool>, rows: Option<u32>, terse: Option<bool>)
    | PingRequest(id: string)
    | Exit(id: string)

  datatype Response =
    | Connected(id: string, version: string, job: string)
    | Pong(id: string)
    | Exited(id: string)
    | QueryResult(q: QueryBody)
    | PreparedStatement(id: string, success: bool, contId: string, executionTime: real)
    | SqlClosed(id: string, success: bool)
    | ClResult(id: string, success: bool, messages: seq<ClMessage>)
    | Version(id: string, success: bool, version: string)
    | DbJob(id: string, success: bool, job: string)
    | ConfigSet(id: string, success: bool)
    | TraceData(id: string, success: bool, tracedata: string)
    | DoveResult(id: string, success: bool, vedata: Json, vemetadata: Option<Json>)
    | Error(e: ErrorBody)

  datatype QueryBody = QueryBody(
    id: string,
    success: bool,
    hasResults: bool,
    updateCount: i64,
    contId: Option<string>,
    isDone: bool,
    metadata: QueryMetaData,
    data: seq<Fields>,
    executionTime: real,
    error: Option<string>,
    sqlcode: Option<i32>,
    sqlstate: Option<string>,
    parameterCount: Option<u32>,
    outputParms: seq<ParameterResult>)
  {
    /** The opening request id is the cursor; a server `cont_id` only stands in for an empty id. */
    function CursorHandle(): (h: Option<string>)
      ensures h == None <==> id == "" && (contId == None || contId == Some(""))
      ensures h.Some? ==> h.value != "" && h == if id != "" then Some(id) else contId
    {
      if id == "" then (if contId == Some("") then None else contId) else Some(id)
    }
  }

  datatype QueryMetaData = QueryMetaData(
    columnCount: u32,
    columns: seq<Column>,
    job: Option<string>,
    parameters: seq<ParameterDetail>)

  datatype Column = Column(
    name: string,
    lbl: Option<string>,
    typeName: Option<string>,
    displaySize: Option<u32>,
    precision: Option<u32>,
    scale: Option<u32>)

  datatype ParameterDetail = ParameterDetail(
    typeName: string,
    mode: string,
    precision: u32,
    scale: Option<u32>,
    name: string)

  datatype ParameterResult = ParameterResult(
    index: u32,
    typeName: string,
    precision: u32,
    scale: Option<u32>,
    name: string,
    ccsid: Option<u32>,
    value: Option<Json>)

  datatype ClMessage = ClMessage(id: Option<string>, kind: Option<string>, text: Option<string>)

  datatype ErrorBody = ErrorBody(
    id: string,
    success: bool,
    sqlstate: Option<string>,
    sqlcode: Option<i32>,
    error: Option<string>,
    job: Option<string>)

  const EMPTY_META_DATA := QueryMetaData(0, [], None, [])

  /** Why a frame is not a response. `Shape` covers every field-level mismatch. */
  datatype DecodeError =
    | NotAnObject
    | MissingType
    | UnknownType(tag: string)
    | Unrecognized
    | Shape
    | TerseRowsWithoutColumns
    | TerseRowTooLong(row: nat, cells: nat, columns: nat)
    | RowNotObjectOrArray(row: nat, got: Json)

  datatype TransportError = Io(detail: string) | Closed

  datatype ProtocolError =
    | MalformedJson(detail: string)
    | Undecodable(cause: DecodeError)
    | MissingColumns
    | UnexpectedVariant(got: Response)
    | ZeroPageSize
    | EmptyParameterSets

  datatype CallError =
    | Transport(t: TransportError)
    | Protocol(p: ProtocolError)
    | Server(body: ErrorBody)
    | Internal(detail: string)

  /** What a caller's `send` resolves to. */
  type Outcome = Result<Response, CallError>

  const CLOSED_OUTCOME: Outcome := Err(Transport(Closed))

  /** The id under which a response is routed back to its caller. */
  function ResponseId(r: Response): string {
    match r
    case QueryResult(q) => q.id
    case Error(e) => e.id
    case _ => r.id
  }
}
