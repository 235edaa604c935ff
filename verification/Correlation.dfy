/** Matching answers to requests: ids, request kinds, and the remapping of bare acknowledgements. */
module Correlation {
  import opened Wrappers
  import opened Json
  import opened Protocol
  import opened Decode
  import DecodeLaws

  datatype PendingKind =
    | ConnectKind
    | PingKind
    | GetDbJobKind
    | GetVersionKind
    | PrepareSqlKind
    | SetConfigKind
    | SqlCloseKind
    | ExitKind
    | GetTraceDataKind
    | OtherKind

  function KindOf(r: Request): PendingKind {
    match r
    case Connect(_, _, _, _) => ConnectKind
    case PingRequest(_) => PingKind
    case GetDbJob(_) => GetDbJobKind
    case GetVersion(_) => GetVersionKind
    case PrepareSql(_, _, _) => PrepareSqlKind
    case SetConfig(_, _, _) => SetConfigKind
    case SqlClose(_, _) => SqlCloseKind
    case Exit(_) => ExitKind
    case GetTraceData(_) => GetTraceDataKind
    case _ => OtherKind
  }

  /**
    Live daemons acknowledge several operations with the same bare shape; the
    kind of the outstanding request says which variant the caller waits for.
   */
  function Remap(kind: PendingKind, r: Response): (out: Response)
    ensures ResponseId(out) == ResponseId(r)
  {
    match (kind, r)
    case (GetDbJobKind, Connected(id, _, job)) => DbJob(id, true, job)
    case (SetConfigKind, Pong(id)) => ConfigSet(id, true)
    case (SqlCloseKind, Pong(id)) => SqlClosed(id, true)
    case (ExitKind, Pong(id)) => Exited(id)
    case (PrepareSqlKind, Pong(id)) => PreparedStatement(id, true, "", 0.0)
    case (GetTraceDataKind, Pong(id)) => TraceData(id, true, "")
    case (_, other) => other
  }

  /** What a bare acknowledgement says to the caller of each request. */
  function Acknowledged(request: Request, id: string): Response {
    match request
    case SetConfig(_, _, _) => ConfigSet(id, true)
    case SqlClose(_, _) => SqlClosed(id, true)
    case Exit(_) => Exited(id)
    case PrepareSql(_, _, _) => PreparedStatement(id, true, "", 0.0)
    case GetTraceData(_) => TraceData(id, true, "")
    case Connect(_, _, _, _) => Pong(id)
    case Sql(_, _, _, _, _) => Pong(id)
    case PrepareSqlExecute(_, _, _, _, _) => Pong(id)
    case Execute(_, _, _, _, _) => Pong(id)
    case SqlMore(_, _, _) => Pong(id)
    case Cl(_, _, _) => Pong(id)
    case GetVersion(_) => Pong(id)
    case GetDbJob(_) => Pong(id)
    case Dove(_, _, _, _, _) => Pong(id)
    case PingRequest(_) => Pong(id)
  }

  /** What a response means to the caller of `request`: acknowledgements are read as their own, the rest stays. */
  function Meant(request: Request, r: Response): Response {
    if r.Pong? then Acknowledged(request, r.id)
    else if r.Connected? && request.GetDbJob? then DbJob(r.id, true, r.job)
    else r
  }

  /** Remapping by the kind of a request says what the response means to that very request. */
  lemma RemapMeans(request: Request, r: Response)
    ensures Remap(KindOf(request), r) == Meant(request, r)
  {
  }

  const UNKNOWN_TYPE := "unknown response type: "
  const NO_COLUMNS := "terse row data requires metadata.columns"

  predicate Contains(text: string, part: string) {
    exists i :: 0 <= i <= |text| && part <= text[i..]
  }

  /** The JSON text of the string says so; a tab is spelled `\t` there. */
  predicate QuotesNoColumns(s: string) {
    Contains(s, NO_COLUMNS) || Contains(s, "\t" + NO_COLUMNS[1..])
  }

  /**
    Missing columns are recognized by their text, which other errors may quote:
    an unknown `type`, or a row that is a string.
   */
  predicate SaysNoColumns(e: DecodeError) {
    match e
    case TerseRowsWithoutColumns => true
    case UnknownType(tag) => Contains(UNKNOWN_TYPE + tag, NO_COLUMNS)
    case RowNotObjectOrArray(_, Str(s)) => QuotesNoColumns(s)
    case _ => false
  }

  /** The error a caller sees when the frame with its id is not a response. */
  function DecodeFailure(e: DecodeError): CallError {
    if SaysNoColumns(e) then Protocol(MissingColumns) else Protocol(Undecodable(e))
  }

  /** A frame as the dispatcher reads it: decoded, with its raw string id for when that fails. */
  datatype Arrival = Arrival(decoded: Result<Response, DecodeError>, rawId: Option<string>)

  function Arrive(v: Json): Arrival {
    Arrival(DecodeValue(v), if HasId(v) then Some(IdOf(v)) else None)
  }

  /** What the frame means to the request it is for. */
  function Answer(kind: PendingKind, a: Arrival): (o: Outcome)
    ensures o.Ok? ==> a.decoded.Ok? && ResponseId(o.value) == ResponseId(a.decoded.value)
  {
    match a.decoded
    case Ok(r) => Ok(Remap(kind, r))
    case Err(e) => Err(DecodeFailure(e))
  }

  /** The id a frame is routed by: the decoded id, or the raw string id of a frame that does not decode. */
  function Route(a: Arrival): Option<string> {
    match a.decoded
    case Ok(r) => Some(ResponseId(r))
    case Err(_) => a.rawId
  }

  /**
    A frame is routed by its own string id, decodable or not; without one it is routed
    only when its shape coerces the id to "".
   */
  lemma RouteIsFrameId(v: Json)
    ensures HasId(v) ==> Route(Arrive(v)) == Some(IdOf(v))
    ensures !HasId(v) ==> Route(Arrive(v)) == if v.Obj? && DecodeLaws.Coerces(v.fields) then Some("") else None
  {
    DecodeLaws.DecodeKeepsId(v);
  }

  const TAGS := {
    "connected", "pong", "exited", "query_result", "prepared_statement", "sql_closed", "cl_result", "version",
    "db_job", "config_set", "trace_data", "dove_result", "error"
  }

  /** A part whose first two characters are nowhere together in `words` is not found across their end either. */
  lemma FoundBehind(words: string, text: string, part: string)
    requires |part| >= 2 && words != [] && words[|words| - 1] != part[0]
    requires forall i :: 0 <= i < |words| - 1 ==> words[i] != part[0] || words[i + 1] != part[1]
    ensures Contains(words + text, part) <==> Contains(text, part)
  {
    var whole := words + text;
    if Contains(text, part) {
      var i :| 0 <= i <= |text| && part <= text[i..];
      assert whole[|words| + i..] == text[i..];
    }
    if Contains(whole, part) {
      var i :| 0 <= i <= |whole| && part <= whole[i..];
      assert |part| <= |whole| - i;
      assert part[0] == whole[i] && part[1] == whole[i + 1];
      assert i >= |words|;
      assert whole[i..] == text[i - |words|..];
    }
  }

  /** The words before an unknown `type` have no part in a match. */
  lemma TagIsMatched(tag: string)
    ensures Contains(UNKNOWN_TYPE + tag, NO_COLUMNS) <==> Contains(tag, NO_COLUMNS)
  {
    assert NO_COLUMNS[0] == 't' && NO_COLUMNS[1] == 'e';
    FoundBehind(UNKNOWN_TYPE, tag, NO_COLUMNS);
  }

  /** Which decode errors a caller sees as missing columns; any other reaches it as it is. */
  lemma MissingColumnsExactly(e: DecodeError)
    ensures DecodeFailure(e) == Protocol(MissingColumns) <==>
      || e == TerseRowsWithoutColumns
      || (e.UnknownType? && Contains(e.tag, NO_COLUMNS))
      || (e.RowNotObjectOrArray? && e.got.Str?
           && (Contains(e.got.s, NO_COLUMNS) || Contains(e.got.s, ['\t'] + NO_COLUMNS[1..])))
    ensures DecodeFailure(e) == Protocol(MissingColumns) || DecodeFailure(e) == Protocol(Undecodable(e))
  {
    if e.UnknownType? {
      TagIsMatched(e.tag);
    }
  }

  /** A frame of unknown `type` is reported as missing columns exactly when its `type` has the text of that error. */
  lemma UnknownTypeMisread(kind: PendingKind, m: Fields, tag: string)
    requires "type" in m && m["type"] == Str(tag) && tag !in TAGS
    ensures Answer(kind, Arrive(Obj(m))) ==
      Err(Protocol(if Contains(tag, "terse row data requires metadata.columns") then MissingColumns
                   else Undecodable(UnknownType(tag))))
  {
    TagIsMatched(tag);
  }
}
