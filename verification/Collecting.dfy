/** Reading a whole result set: what a completed collection has seen, and what it sent to see it. */
module Collecting {
  import opened Wrappers
  import opened Json
  import opened Protocol
  import opened Codec
  import opened Paging

  /** `Waiting` is a collection whose next page has not arrived. */
  datatype Collected = Waiting | Failed(e: CallError) | Complete(rows: seq<Fields>)

  lemma PollYields(c: Cursor, reply: Outcome)
    requires c.stage == Streaming
    ensures var t := Step(c, Poll(reply));
      || t.stage == Over
      || (t.stage == Streaming && |t.yielded| == |c.yielded| + 1 && t.yielded[..|c.yielded|] == c.yielded)
  {
  }

  /**
    Polls until the stream ends or fails; the stream is dropped on the first error.
    `replies` answer the `sqlmore` requests in turn.
   */
  function Collect(c: Cursor, replies: seq<Outcome>, acc: seq<Fields>): (r: (Collected, Cursor))
    requires c.stage == Streaming
    decreases |replies|, |c.rows|
  {
    if Asks(c) && replies == [] then (Waiting, Ask(c))
    else
      var t := Step(c, Poll(if Asks(c) then replies[0] else CLOSED_OUTCOME));
      var later := if Asks(c) then replies[1..] else replies;
      PollYields(c, if Asks(c) then replies[0] else CLOSED_OUTCOME);
      if t.stage == Over then (Complete(acc), t)
      else
        match t.yielded[|t.yielded| - 1]
        case Err(e) => (Failed(e), Release(t))
        case Ok(row) => Collect(t, later, acc + [row])
  }

  /** The rows of all pages, in order. */
  function Flat(pages: seq<QueryBody>): seq<Fields> {
    if pages == [] then [] else Flat(pages[..|pages| - 1]) + pages[|pages| - 1].data
  }

  /** Between polls: what was handed out and what is buffered is what arrived. */
  predicate Faithful(q: QueryBody, pageSize: u32, c: Cursor, acc: seq<Fields>) {
    && Kept(q, pageSize, c)
    && acc + c.rows == Flat(c.pages)
    && c.done == c.pages[|c.pages| - 1].isDone
    && (q.isDone ==> c.done)
    && (!c.done && Opens(q) ==> c.contId.Some?)
    && c.asked == |c.pages| - 1
  }

  lemma FlatMore(pages: seq<QueryBody>, page: QueryBody)
    ensures Flat(pages + [page]) == Flat(pages) + page.data
  {
    assert (pages + [page])[..|pages|] == pages;
  }

  predicate AnswersNext(c: Cursor, reply: Outcome) {
    reply.Ok? && reply.value.QueryResult? && reply.value.q.id == IssuedId(c.prefix, c.asked)
  }

  lemma OtherReplyFails(c: Cursor, reply: Outcome)
    requires Asks(c) && !AnswersNext(c, reply)
    ensures var t := Step(c, Poll(reply)); t.stage == Streaming && t.yielded != [] && t.yielded[|t.yielded| - 1].Err?
  {
  }

  lemma TurnYields(c: Cursor, page: QueryBody)
    requires Asks(c)
    ensures var t := Turn(Ask(c), page);
      && t.pages == c.pages + [page] && t.done == (page.isDone || page.data == []) && t.asked == c.asked + 1
      && (page.data == [] && page.isDone ==> t.stage == Over)
      && (page.data == [] && !page.isDone ==> t.stage == Streaming && t.yielded == c.yielded + [Err(EMPTY_PAGE)])
      && (page.data != [] ==>
            && t.stage == Streaming && t.yielded == c.yielded + [Ok(page.data[0])]
            && t.rows == page.data[1..] && t.contId == c.contId)
  {
  }

  lemma TurnIsFaithful(q: QueryBody, pageSize: u32, c: Cursor, acc: seq<Fields>, page: QueryBody)
    requires Faithful(q, pageSize, c, acc) && Asks(c) && page.data != []
    ensures Faithful(q, pageSize, Turn(Ask(c), page), acc + [page.data[0]])
  {
    TurnYields(c, page);
    AskKept(q, pageSize, c);
    TurnKept(q, pageSize, Ask(c), page);
    FlatMore(c.pages, page);
    assert (acc + [page.data[0]]) + page.data[1..] == acc + page.data;
  }

  lemma LastTurn(q: QueryBody, pageSize: u32, c: Cursor, acc: seq<Fields>, page: QueryBody)
    requires Faithful(q, pageSize, c, acc) && Asks(c) && page.data == [] && page.isDone
    ensures var t := Turn(Ask(c), page);
      Kept(q, pageSize, t) && t.stage == Over && acc == Flat(t.pages) && t.pages[|t.pages| - 1].isDone &&
        t.asked == |t.pages| - 1
  {
    TurnYields(c, page);
    AskKept(q, pageSize, c);
    TurnKept(q, pageSize, Ask(c), page);
    FlatMore(c.pages, page);
  }

  lemma RowIsFaithful(q: QueryBody, pageSize: u32, c: Cursor, acc: seq<Fields>)
    requires Faithful(q, pageSize, c, acc) && c.stage == Streaming && c.rows != []
    ensures Faithful(q, pageSize, TakeRow(c), acc + [c.rows[0]])
  {
    StepKept(q, pageSize, c, Poll(CLOSED_OUTCOME));
    assert (acc + [c.rows[0]]) + c.rows[1..] == acc + c.rows;
  }

  lemma CollectTakes(c: Cursor, replies: seq<Outcome>, acc: seq<Fields>)
    requires c.stage == Streaming && c.rows != []
    ensures Collect(c, replies, acc) == Collect(TakeRow(c), replies, acc + [c.rows[0]])
  {
  }

  lemma CollectFails(c: Cursor, reply: Outcome, replies: seq<Outcome>, acc: seq<Fields>)
    requires Asks(c) && !AnswersNext(c, reply)
    ensures Collect(c, [reply] + replies, acc).0.Failed?
  {
    OtherReplyFails(c, reply);
  }

  lemma CollectTurns(c: Cursor, page: QueryBody, replies: seq<Outcome>, acc: seq<Fields>, t: Cursor)
    requires Asks(c) && page.id == IssuedId(c.prefix, c.asked)
    requires t == Turn(Ask(c), page)
    ensures page.data != [] ==>
      Collect(c, [Ok(QueryResult(page))] + replies, acc) == Collect(t, replies, acc + [page.data[0]])
    ensures page.data == [] ==>
      Collect(c, [Ok(QueryResult(page))] + replies, acc) ==
        if page.isDone then (Complete(acc), t) else (Failed(EMPTY_PAGE), Release(t))
  {
    TurnYields(c, page);
    assert ([Ok(QueryResult(page))] + replies)[1..] == replies;
  }

  /** The result set of `q` was read to the end as far as `q` allowed. */
  predicate Whole(q: QueryBody, pageSize: u32, rows: seq<Fields>, end: Cursor) {
    && Kept(q, pageSize, end) && end.stage == Over
    && rows == Flat(end.pages)
    && (end.pages[|end.pages| - 1].isDone <==> q.isDone || Opens(q))
    && end.asked == |end.pages| - 1
  }

  predicate WholeIfComplete(q: QueryBody, pageSize: u32, r: (Collected, Cursor)) {
    r.0.Complete? ==> Whole(q, pageSize, r.0.rows, r.1)
  }

  lemma EndIsWhole(q: QueryBody, pageSize: u32, c: Cursor, acc: seq<Fields>)
    requires Faithful(q, pageSize, c, acc) && c.stage == Streaming && c.rows == [] && !Asks(c)
    ensures Whole(q, pageSize, acc, Release(c))
  {
    StepKept(q, pageSize, c, Discard);
  }

  lemma {:induction false} CompleteIsWhole(q: QueryBody, pageSize: u32, c: Cursor, replies: seq<Outcome>,
    acc: seq<Fields>)
    requires Faithful(q, pageSize, c, acc) && c.stage == Streaming
    ensures WholeIfComplete(q, pageSize, Collect(c, replies, acc))
    decreases |replies|, |c.rows|
  {
    if c.rows != [] {
      RowIsFaithful(q, pageSize, c, acc);
      CollectTakes(c, replies, acc);
      CompleteIsWhole(q, pageSize, TakeRow(c), replies, acc + [c.rows[0]]);
    } else if !Asks(c) {
      EndIsWhole(q, pageSize, c, acc);
    } else if replies != [] {
      assert replies == [replies[0]] + replies[1..];
      if AnswersNext(c, replies[0]) {
        PageIsWhole(q, pageSize, c, replies[0].value.q, replies[1..], acc);
      } else {
        CollectFails(c, replies[0], replies[1..], acc);
      }
    }
  }

  lemma {:induction false} PageIsWhole(q: QueryBody, pageSize: u32, c: Cursor, page: QueryBody, replies: seq<Outcome>,
    acc: seq<Fields>)
    requires Faithful(q, pageSize, c, acc) && Asks(c) && page.id == IssuedId(c.prefix, c.asked)
    ensures WholeIfComplete(q, pageSize, Collect(c, [Ok(QueryResult(page))] + replies, acc))
    decreases |replies|, |page.data|
  {
    var t := Turn(Ask(c), page);
    CollectTurns(c, page, replies, acc, t);
    TurnYields(c, page);
    if page.data != [] {
      TurnIsFaithful(q, pageSize, c, acc, page);
      CompleteIsWhole(q, pageSize, t, replies, acc + [page.data[0]]);
    } else if page.isDone {
      LastTurn(q, pageSize, c, acc, page);
    }
  }

  function Begin(q: QueryBody, pageSize: u32, prefix: string): Cursor {
    Step(Open(q, pageSize), BeginStream(prefix))
  }

  lemma BeginIsFaithful(q: QueryBody, pageSize: u32, prefix: string)
    ensures Faithful(q, pageSize, Begin(q, pageSize, prefix), [])
    ensures Begin(q, pageSize, prefix).stage == Streaming
  {
    OpenKept(q, pageSize);
    StepKept(q, pageSize, Open(q, pageSize), BeginStream(prefix));
    FlatMore([], q);
    assert [] + [q] == [q];
  }

  /**
    No silent truncation. A collection that completes returns the rows of every
    page that arrived, in order; it asked for exactly the pages after the
    first, each under the opening cursor; and the last page was marked so,
    unless the opening reply had neither an id nor a `cont_id` to go on with.
   */
  lemma NoSilentTruncation(q: QueryBody, pageSize: u32, prefix: string, replies: seq<Outcome>)
    requires Collect(Begin(q, pageSize, prefix), replies, []).0.Complete?
    ensures var (result, end) := Collect(Begin(q, pageSize, prefix), replies, []);
      && result.rows == Flat(end.pages) && |end.pages| > 0 && end.pages[0] == q
      && (end.pages[|end.pages| - 1].isDone <==> q.isDone || Opens(q))
      && end.sent == if Opens(q) then Mores(end.prefix, q.CursorHandle().value, pageSize, |end.pages| - 1) else []
  {
    BeginIsFaithful(q, pageSize, prefix);
    CompleteIsWhole(q, pageSize, Begin(q, pageSize, prefix), replies, []);
  }

  // ---- a daemon that serves the result set ----------------------------------

  /**
    The pages a well-behaved daemon may send after a page with this `done` flag: none
    empty before the last, the last one marked.
   */
  predicate Script(done: bool, pages: seq<QueryBody>)
    decreases |pages|
  {
    if pages == [] then done
    else !done && (pages[0].data != [] || pages[0].isDone) && Script(pages[0].isDone, pages[1..])
  }

  /** The pages as they arrive, each under the id of the `sqlmore` it answers, the first of them being number `k`. */
  function Stamped(prefix: string, pages: seq<QueryBody>, k: nat): seq<QueryBody> {
    if pages == [] then [] else [pages[0].(id := IssuedId(prefix, k))] + Stamped(prefix, pages[1..], k + 1)
  }

  function Replies(pages: seq<QueryBody>): seq<Outcome> {
    if pages == [] then [] else [Ok(QueryResult(pages[0]))] + Replies(pages[1..])
  }

  predicate ServedAll(r: (Collected, Cursor), pages: seq<QueryBody>) {
    r.0.Complete? && r.1.pages == pages
  }

  lemma {:induction false} ServedCompletes(c: Cursor, pages: seq<QueryBody>, extra: seq<Outcome>, acc: seq<Fields>)
    requires c.stage == Streaming && Script(c.done, pages)
    requires !c.done ==> c.contId.Some? && c.contId.value != ""
    ensures ServedAll(Collect(c, Replies(Stamped(c.prefix, pages, c.asked)) + extra, acc),
      c.pages + Stamped(c.prefix, pages, c.asked))
    decreases |pages|, |c.rows|
  {
    if c.rows != [] {
      CollectTakes(c, Replies(Stamped(c.prefix, pages, c.asked)) + extra, acc);
      ServedCompletes(TakeRow(c), pages, extra, acc + [c.rows[0]]);
    } else if pages != [] {
      var page := pages[0].(id := IssuedId(c.prefix, c.asked));
      var later := Stamped(c.prefix, pages[1..], c.asked + 1);
      assert Replies(Stamped(c.prefix, pages, c.asked)) + extra == [Ok(QueryResult(page))] + (Replies(later) + extra);
      assert c.pages + Stamped(c.prefix, pages, c.asked) == c.pages + [page] + later;
      PageServed(c, page, pages[1..], extra, acc, Turn(Ask(c), page));
    } else {
      assert c.pages + [] == c.pages;
    }
  }

  lemma {:induction false} PageServed(c: Cursor, page: QueryBody, pages: seq<QueryBody>, extra: seq<Outcome>,
    acc: seq<Fields>, t: Cursor)
    requires Asks(c) && page.id == IssuedId(c.prefix, c.asked) && t == Turn(Ask(c), page)
    requires (page.data != [] || page.isDone) && Script(page.isDone, pages)
    ensures ServedAll(
      Collect(c, [Ok(QueryResult(page))] + (Replies(Stamped(c.prefix, pages, c.asked + 1)) + extra), acc),
      c.pages + [page] + Stamped(c.prefix, pages, c.asked + 1))
    decreases |pages|, |page.data|
  {
    CollectTurns(c, page, Replies(Stamped(c.prefix, pages, c.asked + 1)) + extra, acc, t);
    TurnYields(c, page);
    if page.data != [] {
      ServedCompletes(t, pages, extra, acc + [page.data[0]]);
    } else {
      assert c.pages + [page] + [] == c.pages + [page];
    }
  }

  lemma {:induction false} StampedData(prefix: string, pages: seq<QueryBody>, k: nat)
    ensures |Stamped(prefix, pages, k)| == |pages|
  {
    if pages == [] {
    } else {
      StampedData(prefix, pages[1..], k + 1);
    }
  }

  /**
    From a daemon that serves pages p0 .. pn the collection gets all rows and sends
    exactly n `sqlmore` requests and nothing else.
   */
  lemma ServedResultSet(q: QueryBody, pageSize: u32, prefix: string, pages: seq<QueryBody>, extra: seq<Outcome>)
    requires Script(q.isDone, pages) && (q.isDone || Opens(q))
    ensures var stamped := Stamped(prefix, pages, 0);
      var (result, end) := Collect(Begin(q, pageSize, prefix), Replies(stamped) + extra, []);
      && result == Complete(Flat([q] + stamped))
      && end.sent == if Opens(q) then Mores(prefix, q.CursorHandle().value, pageSize, |pages|) else []
  {
    var c := Begin(q, pageSize, prefix);
    ServedCompletes(c, pages, extra, []);
    NoSilentTruncation(q, pageSize, prefix, Replies(Stamped(prefix, pages, 0)) + extra);
    StampedData(prefix, pages, 0);
    CollectKeepsPrefix(c, Replies(Stamped(prefix, pages, 0)) + extra, []);
  }

  lemma {:induction false} CollectKeepsPrefix(c: Cursor, replies: seq<Outcome>, acc: seq<Fields>)
    requires c.stage == Streaming
    ensures Collect(c, replies, acc).1.prefix == c.prefix
    decreases |replies|, |c.rows|
  {
    if !(Asks(c) && replies == []) {
      var reply := if Asks(c) then replies[0] else CLOSED_OUTCOME;
      var t := Step(c, Poll(reply));
      PollYields(c, reply);
      if t.stage != Over && t.yielded[|t.yielded| - 1].Ok? {
        CollectKeepsPrefix(t, if Asks(c) then replies[1..] else replies, acc + [t.yielded[|t.yielded| - 1].value]);
      }
    }
  }
}
