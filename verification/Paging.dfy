/** The paging cursor of a result set, from the opening reply to the last drop, as a state machine. */
module Paging {
  import opened Wrappers
  import opened Json
  import opened Protocol
  import opened Codec

  /** `Over` is reached when the last owner of the cursor is dropped. */
  datatype Stage = Unstreamed | Streaming | Over

  /**
    `rows` are the buffered rows not handed out yet. `sent`, `pages` and
    `yielded` record what was issued on the connection, which pages arrived
    and what the consumer saw.
   */
  datatype Cursor = Cursor(
    stage: Stage,
    rows: seq<Fields>,
    contId: Option<string>,
    done: bool,
    pageSize: u32,
    prefix: string,
    asked: nat,
    sent: seq<Request>,
    pages: seq<QueryBody>,
    yielded: seq<Result<Fields, CallError>>)

  /** `Abandon` is dropping the stream while the poll it was asked for is still waiting. */
  datatype Act =
    | BeginStream(prefix: string)
    | Poll(reply: Outcome)
    | Abandon
    | Discard

  const EMPTY_PAGE := Internal("server returned empty page without is_done")

  function CloseOf(handle: string): Request {
    SqlClose("close-" + handle, handle)
  }

  function MoreOf(c: Cursor): Request
    requires c.contId.Some?
  {
    SqlMore(IssuedId(c.prefix, c.asked), c.contId.value, c.pageSize)
  }

  function Open(q: QueryBody, pageSize: u32): Cursor {
    Cursor(Unstreamed, q.data, if q.isDone then None else q.CursorHandle(), q.isDone, pageSize, "", 0, [], [q], [])
  }

  /** A poll goes to the daemon. */
  predicate Asks(c: Cursor) {
    c.stage == Streaming && c.rows == [] && !c.done && c.contId.Some? && c.contId.value != ""
  }

  function Ask(c: Cursor): Cursor
    requires Asks(c)
  {
    c.(asked := c.asked + 1, sent := c.sent + [MoreOf(c)])
  }

  /** Gives the cursor back to the daemon if it is still held. */
  function Close(c: Cursor): Cursor {
    if c.contId.Some? then c.(contId := None, sent := c.sent + [CloseOf(c.contId.value)]) else c
  }

  function Release(c: Cursor): Cursor {
    (if c.done then c else Close(c)).(stage := Over)
  }

  function TakeRow(c: Cursor): Cursor
    requires c.rows != []
  {
    c.(rows := c.rows[1..], yielded := c.yielded + [Ok(c.rows[0])])
  }

  function Fail(c: Cursor, e: CallError): Cursor {
    c.(yielded := c.yielded + [Err(e)])
  }

  function Turn(c: Cursor, q: QueryBody): Cursor {
    var t := c.(rows := q.data, done := q.isDone, pages := c.pages + [q]);
    if t.rows != [] then TakeRow(t)
    else if t.done then Release(t)
    else Fail(Close(t).(done := true), EMPTY_PAGE)
  }

  function Hear(c: Cursor, id: string, reply: Outcome): Cursor {
    match reply
    case Err(e) => Fail(c, e)
    case Ok(r) =>
      match r
      case QueryResult(q) => if q.id == id then Turn(c, q) else Fail(c, Protocol(UnexpectedVariant(r)))
      case Error(e) => Fail(c, Server(e))
      case _ => Fail(c, Protocol(UnexpectedVariant(r)))
  }

  /** What an act that does not apply in `c` asks for is ignored. */
  function Step(c: Cursor, act: Act): Cursor {
    match act
    case BeginStream(prefix) => if c.stage == Unstreamed then c.(stage := Streaming, prefix := prefix) else c
    case Discard => if c.stage == Over then c else Release(c)
    case Abandon => if Asks(c) then Release(Ask(c)) else if c.stage == Over then c else Release(c)
    case Poll(reply) =>
      if c.stage != Streaming then c
      else if c.rows != [] then TakeRow(c)
      else if Asks(c) then Hear(Ask(c), IssuedId(c.prefix, c.asked), reply)
      else Release(c)
  }

  function Run(c: Cursor, acts: seq<Act>): Cursor
    decreases |acts|
  {
    if acts == [] then c else Run(Step(c, acts[0]), acts[1..])
  }

  // ---- the close law --------------------------------------------------------

  /** A daemon-side cursor was opened by `q`. */
  predicate Opens(q: QueryBody) {
    !q.isDone && q.CursorHandle().Some?
  }

  predicate NoneDone(pages: seq<QueryBody>) {
    forall i :: 0 <= i < |pages| ==> !pages[i].isDone
  }

  /** The `sqlmore` requests of a stream, in order. */
  function Mores(prefix: string, handle: string, pageSize: u32, n: nat): seq<Request> {
    if n == 0 then [] else Mores(prefix, handle, pageSize, n - 1) + [SqlMore(IssuedId(prefix, n - 1), handle, pageSize)]
  }

  /** The cursor is still owed a close. */
  predicate Held(c: Cursor) {
    c.contId.Some? && !c.done
  }

  /** All that the cursor opened by `q` has put on the connection. */
  function Traffic(q: QueryBody, c: Cursor): seq<Request> {
    if !Opens(q) then []
    else
      Mores(c.prefix, q.CursorHandle().value, c.pageSize, c.asked)
      + if NoneDone(c.pages) && !Held(c) then [CloseOf(q.CursorHandle().value)] else []
  }

  predicate Kept(q: QueryBody, pageSize: u32, c: Cursor) {
    && c.pageSize == pageSize
    && |c.pages| > 0 && c.pages[0] == q
    && (c.contId.Some? ==> Opens(q) && c.contId == q.CursorHandle())
    && (Held(c) ==> NoneDone(c.pages) && c.stage != Over)
    && (c.stage == Unstreamed ==> c.asked == 0)
    && (!Opens(q) ==> c.contId == None && c.asked == 0)
    && c.sent == Traffic(q, c)
  }

  lemma OpenKept(q: QueryBody, pageSize: u32)
    ensures Kept(q, pageSize, Open(q, pageSize))
  {
  }

  lemma ReleaseKept(q: QueryBody, pageSize: u32, c: Cursor)
    requires Kept(q, pageSize, c)
    ensures Kept(q, pageSize, Release(c))
    ensures Release(c).sent == c.sent + if Held(c) then [CloseOf(q.CursorHandle().value)] else []
  {
  }

  lemma AskKept(q: QueryBody, pageSize: u32, c: Cursor)
    requires Kept(q, pageSize, c) && Asks(c)
    ensures Kept(q, pageSize, Ask(c))
  {
  }

  lemma TurnKept(q: QueryBody, pageSize: u32, c: Cursor, page: QueryBody)
    requires Kept(q, pageSize, c) && Held(c)
    ensures Kept(q, pageSize, Turn(c, page))
  {
    var pages := c.pages + [page];
    assert NoneDone(pages) <==> !page.isDone by {
      assert pages[|c.pages|] == page;
      assert forall i :: 0 <= i < |c.pages| ==> pages[i] == c.pages[i];
    }
    assert pages[0] == q;
  }

  lemma HearKept(q: QueryBody, pageSize: u32, c: Cursor, id: string, reply: Outcome)
    requires Kept(q, pageSize, c) && Held(c)
    ensures Kept(q, pageSize, Hear(c, id, reply))
  {
    if reply.Ok? && reply.value.QueryResult? {
      TurnKept(q, pageSize, c, reply.value.q);
    }
  }

  lemma PollKept(q: QueryBody, pageSize: u32, c: Cursor, reply: Outcome)
    requires Kept(q, pageSize, c) && c.stage == Streaming
    ensures Kept(q, pageSize, Step(c, Poll(reply)))
  {
    if c.rows == [] {
      if Asks(c) {
        AskKept(q, pageSize, c);
        HearKept(q, pageSize, Ask(c), IssuedId(c.prefix, c.asked), reply);
      } else {
        ReleaseKept(q, pageSize, c);
      }
    }
  }

  lemma StepKept(q: QueryBody, pageSize: u32, c: Cursor, act: Act)
    requires Kept(q, pageSize, c)
    ensures Kept(q, pageSize, Step(c, act))
  {
    match act
    case BeginStream(prefix) =>
    case Discard => ReleaseKept(q, pageSize, c);
    case Abandon =>
      if Asks(c) {
        AskKept(q, pageSize, c);
        ReleaseKept(q, pageSize, Ask(c));
      } else {
        ReleaseKept(q, pageSize, c);
      }
    case Poll(reply) =>
      if c.stage == Streaming {
        PollKept(q, pageSize, c, reply);
      }
  }

  lemma {:induction false} RunKept(q: QueryBody, pageSize: u32, c: Cursor, acts: seq<Act>)
    requires Kept(q, pageSize, c)
    ensures Kept(q, pageSize, Run(c, acts))
    decreases |acts|
  {
    if acts == [] {
    } else {
      StepKept(q, pageSize, c, acts[0]);
      RunKept(q, pageSize, Step(c, acts[0]), acts[1..]);
    }
  }

  /**
    Whatever the daemon answers, however often the stream is polled, and
    wherever it is cancelled or dropped: what goes out is the `sqlmore`
    requests in order, each for the opening cursor and page size, and then, once
    nobody holds the cursor, one `sqlclose` exactly when a cursor was opened and
    no page that arrived was the last.
   */
  lemma CloseLaw(q: QueryBody, pageSize: u32, acts: seq<Act>)
    ensures var c := Run(Open(q, pageSize), acts);
      var handle := if Opens(q) then q.CursorHandle().value else "";
      var more := if Opens(q) then Mores(c.prefix, handle, pageSize, c.asked) else [];
      && (c.stage == Over ==>
            c.sent == more + if Opens(q) && NoneDone(c.pages) then [SqlClose("close-" + handle, handle)] else [])
      && (c.stage != Over ==>
            c.sent == more || (Opens(q) && c.sent == more + [SqlClose("close-" + handle, handle)] && !Asks(c)))
  {
    OpenKept(q, pageSize);
    RunKept(q, pageSize, Open(q, pageSize), acts);
  }

  lemma {:induction false} RunOneMore(c: Cursor, acts: seq<Act>, act: Act)
    ensures Run(c, acts + [act]) == Step(Run(c, acts), act)
    decreases |acts|
  {
    if acts == [] {
      assert [] + [act] == [act] && [act][1..] == [];
    } else {
      assert (acts + [act])[0] == acts[0] && (acts + [act])[1..] == acts[1..] + [act];
      RunOneMore(Step(c, acts[0]), acts[1..], act);
    }
  }

  /**
    Dropping the rows, the stream, or the stream together with a poll that waits ends
    it, wherever that happens: what is owed has then been closed.
   */
  lemma DroppedAnywhere(q: QueryBody, pageSize: u32, acts: seq<Act>, last: Act)
    requires last.Discard? || last.Abandon?
    ensures var s, t := Run(Open(q, pageSize), acts), Run(Open(q, pageSize), acts + [last]);
      && t.stage == Over && t.pages == s.pages && t.yielded == s.yielded
      && t.asked == s.asked + (if last.Abandon? && Asks(s) then 1 else 0)
      && Closes(t.sent) == if Opens(q) && NoneDone(s.pages) then 1 else 0
  {
    RunOneMore(Open(q, pageSize), acts, last);
    ClosedOnce(q, pageSize, acts + [last]);
  }

  function Closes(sent: seq<Request>): nat {
    if sent == [] then 0 else Closes(sent[..|sent| - 1]) + if sent[|sent| - 1].SqlClose? then 1 else 0
  }

  lemma LastAt(init: seq<Request>, last: Request, all: seq<Request>)
    requires all == init + [last]
    ensures |all| == |init| + 1 && all[|init|] == last
    ensures forall i :: 0 <= i < |init| ==> all[i] == init[i]
  {
  }

  lemma {:induction false} MoresAre(prefix: string, handle: string, pageSize: u32, n: nat)
    ensures |Mores(prefix, handle, pageSize, n)| == n
    ensures forall i :: 0 <= i < n ==>
      Mores(prefix, handle, pageSize, n)[i] == SqlMore(IssuedId(prefix, i), handle, pageSize)
  {
    if n == 0 {
    } else {
      MoresAre(prefix, handle, pageSize, n - 1);
      LastAt(Mores(prefix, handle, pageSize, n - 1), SqlMore(IssuedId(prefix, n - 1), handle, pageSize),
        Mores(prefix, handle, pageSize, n));
    }
  }

  lemma {:induction false} MoresCloseNothing(prefix: string, handle: string, pageSize: u32, n: nat)
    ensures Closes(Mores(prefix, handle, pageSize, n)) == 0
  {
    if n == 0 {
    } else {
      MoresCloseNothing(prefix, handle, pageSize, n - 1);
      var init := Mores(prefix, handle, pageSize, n - 1);
      assert (init + [SqlMore(IssuedId(prefix, n - 1), handle, pageSize)])[..|init|] == init;
    }
  }

  /**
    Counted: at most one close, it is the last request, it names the cursor that was
    opened, and after the last drop there is one exactly when it is owed.
   */
  lemma ClosedOnce(q: QueryBody, pageSize: u32, acts: seq<Act>)
    ensures var c := Run(Open(q, pageSize), acts);
      && Closes(c.sent) <= 1
      && (c.stage == Over ==> (Closes(c.sent) == 1 <==> Opens(q) && NoneDone(c.pages)))
      && (forall i :: 0 <= i < |c.sent| && c.sent[i].SqlClose? ==>
            && i == |c.sent| - 1 && Opens(q)
            && c.sent[i] == SqlClose("close-" + q.CursorHandle().value, q.CursorHandle().value))
      && (forall i :: 0 <= i < |c.sent| && c.sent[i].SqlMore? ==>
            Opens(q) && c.sent[i] == SqlMore(IssuedId(c.prefix, i), q.CursorHandle().value, pageSize))
  {
    CloseLaw(q, pageSize, acts);
    var c := Run(Open(q, pageSize), acts);
    if Opens(q) {
      var more := Mores(c.prefix, q.CursorHandle().value, pageSize, c.asked);
      MoresAre(c.prefix, q.CursorHandle().value, pageSize, c.asked);
      MoresCloseNothing(c.prefix, q.CursorHandle().value, pageSize, c.asked);
      assert (more + [CloseOf(q.CursorHandle().value)])[..|more|] == more;
      assert more + [] == more;
    }
  }

  // ---- a reply that is no page ----------------------------------------------

  /**
    A poll whose reply is not the page it asked for yields the error that the reply
    stands for, and leaves the cursor as it is: held, to be asked again or closed.
   */
  lemma PollFails(c: Cursor, reply: Outcome)
    requires Asks(c)
    requires !(reply.Ok? && reply.value.QueryResult? && reply.value.q.id == IssuedId(c.prefix, c.asked))
    ensures Step(c, Poll(reply)) == c.(
      asked := c.asked + 1,
      sent := c.sent + [SqlMore(IssuedId(c.prefix, c.asked), c.contId.value, c.pageSize)],
      yielded := c.yielded + [Err(FailureOf(reply))])
  {
  }

  /** Failures are passed on; an error from the daemon is its own, and anything else is unexpected. */
  function FailureOf(reply: Outcome): CallError {
    if reply.Err? then reply.error
    else if reply.value.Error? then Server(reply.value.e)
    else Protocol(UnexpectedVariant(reply.value))
  }
}
