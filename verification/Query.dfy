/** Opening a result set, the owners of its cursor, and the stream that pages through it. */
module Query {
  import opened Wrappers
  import opened Json
  import opened Protocol
  import opened Codec
  import opened Paging
  import opened Collecting
  import ParameterSets

  // ---- opening --------------------------------------------------------------

  const DEFAULT_ROWS: u32 := 100

  datatype ExecuteOptions = ExecuteOptions(rows: Option<u32>, terse: bool) {
    /** A page size of zero is refused before anything is sent. */
    function ResolvedRows(): (r: Result<u32, CallError>)
      ensures r == Err(Protocol(ZeroPageSize)) <==> rows == Some(0)
      ensures r.Ok? <==> rows != Some(0)
      ensures r.Ok? && rows.Some? ==> rows == Some(r.value)
      ensures rows == None ==> r == Ok(100)
    {
      match rows
      case None => Ok(DEFAULT_ROWS)
      case Some(n) => if n == 0 then Err(Protocol(ZeroPageSize)) else Ok(n)
    }

    function TerseOnWire(): Option<bool> {
      if terse then Some(true) else None
    }
  }

  function OwnedParameterSets(sets: seq<seq<Json>>): Result<seq<seq<Json>>, CallError> {
    if sets == [] then Err(Protocol(EmptyParameterSets)) else Ok(sets)
  }

  /** What is executed: a statement, one set of parameters for it, many sets, or a prepared handle. */
  datatype Statement =
    | Text(sql: string)
    | WithParameters(sql: string, parameters: seq<Json>)
    | WithSets(sql: string, sets: seq<seq<Json>>)
    | Prepared(sql: string, handle: Option<string>, params: Option<seq<Json>>)

  /** The request that opens the result set; what is refused is refused before an id is drawn. */
  function OpeningRequest(id: string, st: Statement, opts: ExecuteOptions): Result<Request, CallError> {
    match st
    case Text(sql) =>
      var pageSize :- opts.ResolvedRows();
      Ok(Sql(id, sql, Some(pageSize), None, opts.TerseOnWire()))
    case WithParameters(sql, parameters) =>
      var pageSize :- opts.ResolvedRows();
      Ok(PrepareSqlExecute(id, sql, Some([parameters]), Some(pageSize), opts.TerseOnWire()))
    case WithSets(sql, sets) =>
      var owned :- OwnedParameterSets(sets);
      var pageSize :- opts.ResolvedRows();
      Ok(PrepareSqlExecute(id, sql, Some(owned), Some(pageSize), opts.TerseOnWire()))
    case Prepared(sql, handle, params) =>
      var pageSize :- opts.ResolvedRows();
      if handle.Some? then Ok(Execute(id, handle.value, params, Some(pageSize), opts.TerseOnWire()))
      else
        Ok(PrepareSqlExecute(id, sql, if params.Some? then Some([params.value]) else None, Some(pageSize),
          opts.TerseOnWire()))
  }

  /** The parameter sets a statement is to run with, once for each. */
  function SetsOf(st: Statement): Option<seq<seq<Json>>> {
    match st
    case Text(_) => None
    case WithParameters(_, parameters) => Some([parameters])
    case WithSets(_, sets) => Some(sets)
    case Prepared(_, _, params) => if params.Some? then Some([params.value]) else None
  }

  /** An empty batch is refused before a zero page size, and nothing else is. */
  lemma RefusedExactly(id: string, st: Statement, opts: ExecuteOptions)
    ensures OpeningRequest(id, st, opts) == Err(Protocol(EmptyParameterSets)) <==> SetsOf(st) == Some([])
    ensures OpeningRequest(id, st, opts) == Err(Protocol(ZeroPageSize)) <==>
      SetsOf(st) != Some([]) && opts.rows == Some(0)
    ensures OpeningRequest(id, st, opts).Ok? <==> SetsOf(st) != Some([]) && opts.rows != Some(0)
    ensures OpeningRequest(id, st, opts).Ok? ==>
      TerseOf(OpeningRequest(id, st, opts).value) == (if opts.terse then Some(true) else None)
  {
  }

  /**
    The statement reaches the daemon: by its handle if it has one, else by its
    text, and then with the caller's parameter sets exactly unless there is a
    single set that is empty or holds arrays alone.
   */
  lemma StatementReachesDaemon(id: string, st: Statement, opts: ExecuteOptions)
    requires OpeningRequest(id, st, opts).Ok?
    ensures var request := OpeningRequest(id, st, opts).value;
      && (request.Execute? <==> st.Prepared? && st.handle.Some?)
      && (request.Execute? ==> request.contId == st.handle.value && request.parameters == st.params)
      && (request.Sql? ==> st == Text(request.sql) && request.parameters == None)
      && (request.PrepareSqlExecute? ==>
            && request.sql == st.sql
            && (ParameterSets.Deserialize(ParameterSets.Serialize(request.sets)) == Ok(SetsOf(st)) <==>
                  (SetsOf(st).Some? && |SetsOf(st).value| == 1 ==> ParameterSets.Plain(SetsOf(st).value[0]))))
  {
    if SetsOf(st).Some? {
      ParameterSets.RoundTripBoundary(SetsOf(st).value);
    }
  }

  /** The reply must be a result under the id that was sent. */
  function Opened(id: string, reply: Outcome, pageSize: u32): Result<Cursor, CallError> {
    match reply
    case Err(e) => Err(e)
    case Ok(r) =>
      match r
      case QueryResult(q) => if q.id == id then Ok(Open(q, pageSize)) else Err(Protocol(UnexpectedVariant(r)))
      case Error(e) => Err(Server(e))
      case _ => Err(Protocol(UnexpectedVariant(r)))
  }

  /** A result set is opened exactly by a page under the id that was sent; other replies are errors. */
  lemma OpenedExactly(id: string, reply: Outcome, pageSize: u32)
    ensures Opened(id, reply, pageSize).Ok? <==>
      reply.Ok? && reply.value.QueryResult? && reply.value.q.id == id
    ensures Opened(id, reply, pageSize).Ok? ==> Opened(id, reply, pageSize).value == Open(reply.value.q, pageSize)
    ensures Opened(id, reply, pageSize).Err? ==> Opened(id, reply, pageSize).error == FailureOf(reply)
  {
  }

  function RowsOnWire(r: Request): Option<u32> {
    match r
    case Sql(_, _, rows, _, _) => rows
    case PrepareSqlExecute(_, _, _, rows, _) => rows
    case Execute(_, _, _, rows, _) => rows
    case _ => None
  }

  function TerseOf(r: Request): Option<bool> {
    match r
    case Sql(_, _, _, _, terse) => terse
    case PrepareSqlExecute(_, _, _, _, terse) => terse
    case Execute(_, _, _, _, terse) => terse
    case _ => None
  }

  function IdOnWire(r: Request): string {
    r.id
  }

  lemma OpeningCarries(id: string, st: Statement, opts: ExecuteOptions)
    requires OpeningRequest(id, st, opts).Ok?
    ensures var request := OpeningRequest(id, st, opts).value;
      IdOnWire(request) == id && opts.ResolvedRows().Ok? && RowsOnWire(request) == Some(opts.ResolvedRows().value)
  {
  }

  lemma OpenedTraffic(id: string, q: QueryBody, pageSize: u32, acts: seq<Act>)
    requires id != "" && q.id == id
    ensures var c := Run(Open(q, pageSize), acts);
      forall i :: 0 <= i < |c.sent| ==>
        || c.sent[i] == SqlMore(IssuedId(c.prefix, i), id, pageSize)
        || (i == |c.sent| - 1 && c.sent[i] == CloseOf(id))
  {
    CloseLaw(q, pageSize, acts);
    var c := Run(Open(q, pageSize), acts);
    MoresAre(c.prefix, id, pageSize, c.asked);
    TrafficShape(c.sent, Mores(c.prefix, id, pageSize, c.asked), id);
  }

  /**
    Whatever statement opened the result set: everything that is later sent
    for it names the opening request as the cursor, and asks for pages of the
    size the opening request asked for, which is never zero.
   */
  lemma TrafficFollowsOpening(id: string, st: Statement, opts: ExecuteOptions, reply: Outcome, acts: seq<Act>)
    requires id != ""
    requires OpeningRequest(id, st, opts).Ok?
    requires Opened(id, reply, opts.ResolvedRows().value).Ok?
    ensures var request := OpeningRequest(id, st, opts).value;
      var c := Run(Opened(id, reply, opts.ResolvedRows().value).value, acts);
      && RowsOnWire(request).Some? && RowsOnWire(request).value > 0
      && (forall i :: 0 <= i < |c.sent| ==>
            || c.sent[i] == SqlMore(IssuedId(c.prefix, i), IdOnWire(request), RowsOnWire(request).value)
            || (i == |c.sent| - 1 && c.sent[i] == SqlClose("close-" + IdOnWire(request), IdOnWire(request))))
  {
    OpeningCarries(id, st, opts);
    OpenedTraffic(id, reply.value.q, opts.ResolvedRows().value, acts);
  }

  lemma TrafficShape(sent: seq<Request>, more: seq<Request>, id: string)
    requires sent == more || sent == more + [CloseOf(id)] || sent == []
    ensures forall i :: 0 <= i < |sent| ==>
      (i < |more| && sent[i] == more[i]) || (i == |sent| - 1 && sent[i] == CloseOf(id))
  {
  }

  /** A result set opened by a request and read to the end has its last page: nothing is cut off silently. */
  lemma ExecuteIsWhole(id: string, reply: Outcome, pageSize: u32, prefix: string, replies: seq<Outcome>)
    requires id != "" && Opened(id, reply, pageSize).Ok?
    requires Collect(Step(Opened(id, reply, pageSize).value, BeginStream(prefix)), replies, []).0.Complete?
    ensures var (result, end) := Collect(Step(Opened(id, reply, pageSize).value, BeginStream(prefix)), replies, []);
      && result.rows == Flat(end.pages)
      && |end.pages| > 0 && end.pages[0] == reply.value.q
      && end.pages[|end.pages| - 1].isDone
  {
    NoSilentTruncation(reply.value.q, pageSize, prefix, replies);
  }

  // ---- the owners of a cursor -----------------------------------------------

  /** The connection, as far as a cursor sees it: what was issued on it. */
  class Handle {
    var issued: seq<Request>

    constructor ()
      ensures issued == []
    {
      issued := [];
    }

    method Issue(r: Request)
      modifies this
      ensures issued == old(issued) + [r]
    {
      issued := issued + [r];
    }
  }

  /** The first page, and the cursor until a stream takes it over. */
  class Rows {
    const handle: Handle
    const pageSize: u32
    var inner: QueryBody
    var cursor: Option<string>
    ghost var stage: Stage
    ghost var sent: seq<Request>
    ghost const opening: QueryBody

    ghost function View(): Cursor
      reads this
    {
      Cursor(stage, inner.data, cursor, opening.isDone, pageSize, "", 0, sent, [opening], [])
    }

    ghost predicate Valid()
      reads this
    {
      inner.isDone == opening.isDone && (opening.isDone ==> cursor == None)
    }

    constructor (inner: QueryBody, handle: Handle, pageSize: u32)
      ensures Valid() && this.handle == handle
      ensures View() == Open(inner, pageSize)
    {
      this.inner, this.handle, this.pageSize := inner, handle, pageSize;
      cursor := if inner.isDone then None else inner.CursorHandle();
      stage, sent, opening := Unstreamed, [], inner;
    }

    /** Dropping the rows closes the cursor they still own. */
    method Drop()
      requires Valid() && stage != Over
      modifies this, handle
      ensures View() == Release(old(View()))
      ensures handle.issued == old(handle.issued) + View().sent[|old(View()).sent|..]
    {
      if cursor.Some? {
        handle.Issue(CloseOf(cursor.value));
        sent := sent + [CloseOf(cursor.value)];
        cursor := None;
      }
      stage := Over;
    }

    /** Hands the cursor and the first page over to a stream; dropping `this` then closes nothing. */
    method IntoStream(clock: Option<u32>, pid: u32) returns (stream: StreamState)
      requires Valid() && stage == Unstreamed
      modifies this, handle
      ensures fresh(stream) && fresh(stream.ids) && stream.handle == handle && stream.Valid()
      ensures stream.View() == Step(old(View()), BeginStream(PrefixText(if clock.Some? then clock.value else 0, pid)))
      ensures handle.issued == old(handle.issued)
    {
      var taken, data := cursor, inner.data;
      cursor, inner := None, inner.(data := []);
      var ids := new IdAllocator(clock, pid);
      stream := new StreamState(this, data, taken, inner.isDone, ids, opening, sent);
      Drop();
    }
  }

  /** What the stream keeps between polls. */
  class StreamState {
    const handle: Handle
    const ids: IdAllocator
    const pageSize: u32
    var rows: seq<Fields>
    var contId: Option<string>
    var done: bool
    ghost var stage: Stage
    ghost var asked: nat
    ghost var sent: seq<Request>
    ghost var pages: seq<QueryBody>
    ghost var yielded: seq<Result<Fields, CallError>>

    ghost function View(): Cursor
      reads this, ids
    {
      Cursor(stage, rows, contId, done, pageSize, ids.prefix, asked, sent, pages, yielded)
    }

    ghost predicate Valid()
      reads this, ids
    {
      ids.counter == asked % WRAPAROUND
    }

    constructor (from: Rows, data: seq<Fields>, cursor: Option<string>, done: bool, ids: IdAllocator,
                 ghost opening: QueryBody, ghost sent: seq<Request>)
      requires ids.counter == 0
      ensures Valid() && this.ids == ids && handle == from.handle
      ensures View() == Cursor(Streaming, data, cursor, done, from.pageSize, ids.prefix, 0, sent, [opening], [])
    {
      handle, pageSize, rows, contId := from.handle, from.pageSize, data, cursor;
      this.done, this.ids := done, ids;
      stage, asked, this.sent, pages, yielded := Streaming, 0, sent, [opening], [];
    }

    method Issue(r: Request)
      modifies this`sent, handle
      ensures sent == old(sent) + [r] && handle.issued == old(handle.issued) + [r]
    {
      handle.Issue(r);
      sent := sent + [r];
    }

    /** Takes the cursor, if there is one, and closes it. */
    method CloseCursor()
      modifies this`sent, this`contId, handle
      ensures View() == Close(old(View()))
      ensures handle.issued == old(handle.issued) + sent[|old(sent)|..]
    {
      if contId.Some? {
        Issue(CloseOf(contId.value));
        contId := None;
      }
    }

    method Drop()
      modifies this`sent, this`contId, this`stage, handle
      ensures View() == Release(old(View()))
      ensures handle.issued == old(handle.issued) + sent[|old(sent)|..]
    {
      if !done {
        CloseCursor();
      }
      stage := Over;
    }

    method NextRow() returns (row: Option<Fields>)
      modifies this`rows, this`yielded
      ensures row.None? <==> old(rows) == []
      ensures row.None? ==> View() == old(View())
      ensures row.Some? ==> View() == TakeRow(old(View())) && row.value == old(rows)[0]
    {
      row := None;
      if rows != [] {
        row := Some(rows[0]);
        yielded := yielded + [Ok(rows[0])];
        rows := rows[1..];
      }
    }

    /** The `sqlmore` of a poll that found nothing buffered. */
    method AskMore() returns (id: string)
      requires Valid() && Asks(View())
      modifies this`sent, this`asked, handle, ids
      ensures Valid() && View() == Ask(old(View())) && id == IssuedId(old(ids.prefix), old(asked))
      ensures handle.issued == old(handle.issued) + sent[|old(sent)|..]
    {
      CountOn(asked);
      id := ids.Next();
      Issue(SqlMore(id, contId.value, pageSize));
      asked := asked + 1;
    }

    method TurnPage(q: QueryBody) returns (item: Option<Result<Fields, CallError>>)
      requires stage == Streaming
      modifies this, handle
      ensures View() == Turn(old(View()), q) && asked == old(asked)
      ensures item.None? <==> stage == Over
      ensures item.Some? ==> yielded == old(yielded) + [item.value]
      ensures handle.issued == old(handle.issued) + sent[|old(sent)|..]
    {
      rows, done := q.data, q.isDone;
      pages := pages + [q];
      var row := NextRow();
      if row.Some? {
        item := Some(Ok(row.value));
      } else if done {
        Drop();
        item := None;
      } else {
        CloseCursor();
        done := true;
        item := Some(Err(EMPTY_PAGE));
        yielded := yielded + [Err(EMPTY_PAGE)];
      }
    }

    method FailItem(e: CallError) returns (item: Option<Result<Fields, CallError>>)
      modifies this`yielded
      ensures View() == Fail(old(View()), e) && item == Some(Err(e))
    {
      item := Some(Err(e));
      yielded := yielded + [Err(e)];
    }

    /** What a poll makes of the reply it asked for. */
    method Respond(id: string, reply: Outcome) returns (item: Option<Result<Fields, CallError>>)
      requires stage == Streaming
      modifies this, handle
      ensures View() == Hear(old(View()), id, reply) && asked == old(asked)
      ensures item.None? <==> stage == Over
      ensures item.Some? ==> yielded == old(yielded) + [item.value]
      ensures handle.issued == old(handle.issued) + sent[|old(sent)|..]
    {
      match reply
      case Err(e) => item := FailItem(e);
      case Ok(r) =>
        match r {
          case QueryResult(q) =>
            if q.id == id {
              item := TurnPage(q);
            } else {
              item := FailItem(Protocol(UnexpectedVariant(r)));
            }
          case Error(e) => item := FailItem(Server(e));
          case _ => item := FailItem(Protocol(UnexpectedVariant(r)));
        }
    }

    /** One poll of the stream; `reply` is what the daemon answers if the poll has to ask. */
    method Next(reply: Outcome) returns (item: Option<Result<Fields, CallError>>)
      requires Valid() && stage == Streaming
      modifies this, handle, ids
      ensures Valid() && View() == Step(old(View()), Poll(reply))
      ensures item.None? <==> stage == Over
      ensures item.Some? ==> yielded == old(yielded) + [item.value]
      ensures handle.issued == old(handle.issued) + sent[|old(sent)|..]
    {
      var row := NextRow();
      if row.Some? {
        return Some(Ok(row.value));
      }
      if done || contId.None? || contId.value == "" {
        Drop();
        return None;
      }
      var id := AskMore();
      item := Respond(id, reply);
    }

    /** The stream is dropped while a poll waits for its reply. */
    method DropInFlight()
      requires Valid() && stage == Streaming
      modifies this, handle, ids
      ensures View() == Step(old(View()), Abandon)
      ensures handle.issued == old(handle.issued) + sent[|old(sent)|..]
    {
      if rows == [] && !done && contId.Some? && contId.value != "" {
        var id := AskMore();
      }
      Drop();
    }

    /** Drives the stream until it ends or fails; `replies` are the daemon's answers in turn. */
    method TryCollect(replies: seq<Outcome>) returns (result: Collected)
      requires Valid() && stage == Streaming
      modifies this, handle, ids
      ensures (result, View()) == Collect(old(View()), replies, [])
    {
      var acc, rest := [], replies;
      while true
        invariant Valid() && stage == Streaming
        invariant Collect(View(), rest, acc) == Collect(old(View()), replies, [])
        decreases |rest|, |rows|
      {
        ghost var c := View();
        var asks := rows == [] && !done && contId.Some? && contId.value != "";
        if asks && rest == [] {
          var id := AskMore();
          return Waiting;
        }
        var reply := if asks then rest[0] else CLOSED_OUTCOME;
        rest := if asks then rest[1..] else rest;
        var item := Next(reply);
        match item
        case None => return Complete(acc);
        case Some(Err(e)) =>
          Drop();
          return Failed(e);
        case Some(Ok(row)) => acc := acc + [row];
      }
    }
  }

  // ---- prepared statements --------------------------------------------------

  /** What a reply to `prepare_sql` yields: the daemon's handle, or none when the statement is kept client-side. */
  function PreparedHandle(id: string, reply: Outcome): Result<Option<string>, CallError> {
    match reply
    case Err(e) => Err(e)
    case Ok(r) =>
      match r
      case PreparedStatement(got, _, contId, _) =>
        if got != id then Err(Protocol(UnexpectedVariant(r))) else Ok(if contId == "" then None else Some(contId))
      case Pong(got) => if got != id then Err(Protocol(UnexpectedVariant(r))) else Ok(None)
      case Error(e) => Err(Server(e))
      case _ => Err(Protocol(UnexpectedVariant(r)))
  }

  /** A statement is prepared exactly by an acknowledgement under the id that was sent, and has the handle it gives. */
  lemma PreparedExactly(id: string, reply: Outcome)
    ensures PreparedHandle(id, reply).Ok? <==>
      reply.Ok? && (reply.value.PreparedStatement? || reply.value.Pong?) && reply.value.id == id
    ensures forall h: string :: PreparedHandle(id, reply) == Ok(Some(h)) <==>
      h != "" && reply.Ok? && reply.value.PreparedStatement? && reply.value.id == id && reply.value.contId == h
    ensures PreparedHandle(id, reply).Err? ==> PreparedHandle(id, reply).error == FailureOf(reply)
  {
  }

  /** The close that dropping a prepared statement owes. */
  function OwedClose(contId: Option<string>): seq<Request> {
    if contId.Some? && contId.value != "" then [CloseOf(contId.value)] else []
  }

  class PreparedQuery {
    const handle: Handle
    var contId: Option<string>

    constructor (contId: Option<string>, handle: Handle)
      ensures this.contId == contId && this.handle == handle
    {
      this.contId, this.handle := contId, handle;
    }

    method Drop()
      modifies this, handle
      ensures contId == None
      ensures handle.issued == old(handle.issued) +
        if old(contId).Some? && old(contId).value != "" then
          [SqlClose("close-" + old(contId).value, old(contId).value)]
        else []
    {
      var taken := contId;
      contId := None;
      if taken.Some? && taken.value != "" {
        handle.Issue(CloseOf(taken.value));
      }
    }
  }
}
