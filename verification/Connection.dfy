/**
  Everything one connection sends: requests under the job's ids, the paging of
  each result set under its stream's ids, and the closes of cursors and prepared
  statements under ids made from the handle they close.
 */
module Connection {
  import opened Wrappers
  import opened Json
  import opened Protocol
  import opened Codec
  import opened Paging
  import opened Query
  import opened Counter
  import Dispatch
  import DispatchInvariant
  import DispatchRefinement
  import DispatchCounter

  /** Where an id comes from. */
  datatype Origin =
    | FromJob(n: nat)
    | FromStream(cursor: nat, n: nat)
    | ForCursor(cursor: nat)
    | ForQuery(query: nat)

  /**
    `pid` is the process id and `clock` the sub-second time at which the job's id
    allocator was made, `clocks[i]` that of the allocator of stream `i`.
    `openedBy[i]` numbers the request that opened result set `i`. `handles`
    are the handles the daemon gave to prepared statements and `live` says which
    of them have not been dropped.
   */
  datatype Conn = Conn(
    pid: u32,
    clock: u32,
    clocks: seq<u32>,
    issued: nat,
    cursors: seq<Cursor>,
    openedBy: seq<nat>,
    handles: seq<Option<string>>,
    live: seq<bool>,
    log: seq<Request>,
    origins: seq<Origin>)
  {
    function Prefix(): string {
      PrefixText(clock, pid)
    }

    /** The id of the request that opened result set `i`. */
    function OpeningId(i: nat): string
      requires i < |openedBy|
    {
      IssuedId(Prefix(), openedBy[i])
    }
  }

  datatype Move =
    | Talk(request: Request)
    | Answered(number: nat, q: QueryBody, pageSize: u32)
    | Begin(cursor: nat, clock: u32)
    | Act(cursor: nat, act: Paging.Act)
    | Prepare(handle: Option<string>)
    | DropQuery(query: nat)

  function Fresh(pid: u32, clock: u32): Conn {
    Conn(pid, clock, [], 0, [], [], [], [], [], [])
  }

  /** A request goes out under the job's next id, whatever else it says. */
  function Speak(s: Conn, request: Request): Conn {
    s.(issued := s.issued + 1,
       log := s.log + [request.(id := IssuedId(s.Prefix(), s.issued))],
       origins := s.origins + [FromJob(s.issued)])
  }

  /** The reply to request `number` opens a result set. */
  function Opening(s: Conn, number: nat, q: QueryBody, pageSize: u32): Conn {
    s.(cursors := s.cursors + [Open(q, pageSize)], openedBy := s.openedBy + [number], clocks := s.clocks + [0])
  }

  /** An act of cursor `i`: at most one `sqlmore` under the next stream id, then at most one close. */
  function ActOrigins(i: nat, c: Cursor, t: Cursor): seq<Origin> {
    (if t.asked > c.asked then [FromStream(i, c.asked)] else [])
    + (if c.contId.Some? && t.contId.None? then [ForCursor(i)] else [])
  }

  function Page(s: Conn, i: nat, act: Paging.Act): Conn
    requires i < |s.cursors|
  {
    var c := s.cursors[i];
    var t := Step(c, act);
    s.(cursors := s.cursors[i := t],
       log := s.log + (if |c.sent| <= |t.sent| then t.sent[|c.sent|..] else []),
       origins := s.origins + ActOrigins(i, c, t))
  }

  function Unprepare(s: Conn, j: nat): Conn
    requires j < |s.live| == |s.handles|
  {
    var owed := OwedClose(s.handles[j]);
    s.(live := s.live[j := false],
       log := s.log + owed,
       origins := s.origins + if owed == [] then [] else [ForQuery(j)])
  }

  /** Moves that cannot happen are ignored: a request opens at most one result set, and a statement is dropped once. */
  function Next(s: Conn, m: Move): Conn {
    match m
    case Talk(request) => Speak(s, request)
    case Answered(number, q, pageSize) =>
      if number < s.issued && number !in s.openedBy && q.id == IssuedId(s.Prefix(), number) then
        Opening(s, number, q, pageSize)
      else s
    case Begin(i, clock) =>
      if i < |s.cursors| == |s.clocks| && s.cursors[i].stage == Unstreamed then
        Page(s, i, BeginStream(PrefixText(clock, s.pid))).(clocks := s.clocks[i := clock])
      else s
    case Act(i, act) => if i < |s.cursors| && !act.BeginStream? then Page(s, i, act) else s
    case Prepare(handle) => s.(handles := s.handles + [handle], live := s.live + [true])
    case DropQuery(j) => if j < |s.live| == |s.handles| && s.live[j] then Unprepare(s, j) else s
  }

  function Life(s: Conn, moves: seq<Move>): Conn
    decreases |moves|
  {
    if moves == [] then s else Life(Next(s, moves[0]), moves[1..])
  }

  // ---- every id has an origin, and each origin is used once -----------------

  /** The close of result set `i` has been issued. */
  predicate CursorClosed(s: Conn, i: nat) {
    i < |s.cursors| && |s.cursors[i].pages| > 0 && Opens(s.cursors[i].pages[0]) && s.cursors[i].contId.None?
  }

  /** The close of prepared statement `j` has been issued. */
  predicate QueryClosed(s: Conn, j: nat) {
    j < |s.live| && j < |s.handles| && !s.live[j] && OwedClose(s.handles[j]) != []
  }

  predicate Used(s: Conn, o: Origin) {
    match o
    case FromJob(n) => n < s.issued
    case FromStream(i, n) => i < |s.cursors| && n < s.cursors[i].asked
    case ForCursor(i) => CursorClosed(s, i) && i < |s.openedBy|
    case ForQuery(j) => QueryClosed(s, j)
  }

  function TextOf(s: Conn, o: Origin): string
    requires Used(s, o)
  {
    match o
    case FromJob(n) => IssuedId(s.Prefix(), n)
    case FromStream(i, n) => IssuedId(s.cursors[i].prefix, n)
    case ForCursor(i) => "close-" + s.OpeningId(i)
    case ForQuery(j) => "close-" + s.handles[j].value
  }

  ghost predicate CursorOk(s: Conn, i: nat)
    requires i < |s.cursors| == |s.openedBy| == |s.clocks|
  {
    var c := s.cursors[i];
    && |c.pages| > 0 && Kept(c.pages[0], c.pageSize, c)
    && c.pages[0].id == s.OpeningId(i) && s.openedBy[i] < s.issued
    && (c.asked > 0 ==> c.stage != Unstreamed && c.prefix == PrefixText(s.clocks[i], s.pid))
    && (c.stage == Streaming ==> c.prefix == PrefixText(s.clocks[i], s.pid))
  }

  ghost predicate CursorsOk(s: Conn) {
    && |s.cursors| == |s.openedBy| == |s.clocks|
    && (forall i :: 0 <= i < |s.cursors| ==> CursorOk(s, i))
    && (forall i, j :: 0 <= i < j < |s.openedBy| ==> s.openedBy[i] != s.openedBy[j])
  }

  /** `origins` lists what has been used, once each, and says where each id comes from. */
  ghost predicate OriginsOk(s: Conn) {
    && |s.origins| == |s.log|
    && (forall x :: 0 <= x < |s.log| ==> Used(s, s.origins[x]) && s.log[x].id == TextOf(s, s.origins[x]))
    && (forall x, y :: 0 <= x < y < |s.origins| ==> s.origins[x] != s.origins[y])
    && (forall o :: Used(s, o) ==> o in s.origins)
  }

  ghost predicate Inv(s: Conn) {
    |s.live| == |s.handles| && CursorsOk(s) && OriginsOk(s)
  }

  /** `t` uses what `s` has used, for the same ids, and `from` besides. */
  ghost predicate Extends(s: Conn, t: Conn, from: seq<Origin>) {
    && (forall o :: Used(s, o) ==> Used(t, o) && TextOf(t, o) == TextOf(s, o))
    && (forall o :: Used(t, o) ==> Used(s, o) || o in from)
  }

  /** New ids from origins not used before keep the list exact. */
  lemma Appended(s: Conn, t: Conn, sent: seq<Request>, from: seq<Origin>)
    requires OriginsOk(s) && Extends(s, t, from)
    requires t.log == s.log + sent && t.origins == s.origins + from && |sent| == |from|
    requires forall x :: 0 <= x < |from| ==> !Used(s, from[x]) && Used(t, from[x]) && sent[x].id == TextOf(t, from[x])
    requires forall x, y :: 0 <= x < y < |from| ==> from[x] != from[y]
    ensures OriginsOk(t)
  {
    forall x | 0 <= x < |t.log| ensures Used(t, t.origins[x]) && t.log[x].id == TextOf(t, t.origins[x]) {
      if x < |s.log| {
        assert Used(s, s.origins[x]);
      } else {
        assert t.origins[x] == from[x - |s.log|];
      }
    }
    forall x, y | 0 <= x < y < |t.origins| ensures t.origins[x] != t.origins[y] {
      if y >= |s.log| {
        if x < |s.log| {
          assert Used(s, s.origins[x]) && !Used(s, from[y - |s.log|]);
        } else {
          assert from[x - |s.log|] != from[y - |s.log|];
        }
      }
    }
  }

  /** What a step from `c` to `t` added to the traffic, and that nothing else of it changed. */
  predicate Sends(q: QueryBody, pageSize: u32, c: Cursor, t: Cursor) {
    && (t.asked == c.asked || t.asked == c.asked + 1)
    && (c.asked > 0 ==> t.prefix == c.prefix)
    && (c.contId.None? ==> t.contId.None?)
    && |t.pages| > 0 && t.pages[0] == q
    && (t.asked > c.asked || (c.contId.Some? && t.contId.None?) ==> Opens(q))
    && t.sent == c.sent
         + (if t.asked > c.asked then [SqlMore(IssuedId(t.prefix, c.asked), q.CursorHandle().value, pageSize)] else [])
         + (if c.contId.Some? && t.contId.None? then [CloseOf(q.CursorHandle().value)] else [])
  }

  lemma PollSends(q: QueryBody, pageSize: u32, c: Cursor, reply: Outcome)
    requires Kept(q, pageSize, c)
    ensures Sends(q, pageSize, c, Step(c, Poll(reply)))
  {
    assert c.sent + [] == c.sent;
  }

  /** What one act adds to the traffic of a cursor: at most one `sqlmore`, then at most one close. */
  lemma ActSends(q: QueryBody, pageSize: u32, c: Cursor, act: Paging.Act)
    requires Kept(q, pageSize, c)
    ensures Kept(q, pageSize, Step(c, act)) && Sends(q, pageSize, c, Step(c, act))
  {
    StepKept(q, pageSize, c, act);
    match act
    case Poll(reply) => PollSends(q, pageSize, c, reply);
    case BeginStream(_) =>
    case Abandon =>
    case Discard =>
  }

  /** Cursors are untouched by a move that only issues more job ids. */
  lemma SameCursors(s: Conn, t: Conn)
    requires CursorsOk(s) && t.cursors == s.cursors && t.openedBy == s.openedBy && t.clocks == s.clocks
    requires t.pid == s.pid && t.clock == s.clock && s.issued <= t.issued
    ensures CursorsOk(t)
  {
    forall i | 0 <= i < |t.cursors| ensures CursorOk(t, i) {
      assert CursorOk(s, i);
    }
  }

  lemma SpeakKeepsInv(s: Conn, request: Request)
    requires Inv(s)
    ensures Inv(Speak(s, request))
  {
    SameCursors(s, Speak(s, request));
    Appended(s, Speak(s, request), [request.(id := IssuedId(s.Prefix(), s.issued))], [FromJob(s.issued)]);
  }

  lemma OpeningKeepsCursors(s: Conn, number: nat, q: QueryBody, pageSize: u32)
    requires CursorsOk(s) && number < s.issued && number !in s.openedBy && q.id == IssuedId(s.Prefix(), number)
    ensures CursorsOk(Opening(s, number, q, pageSize))
  {
    var t := Opening(s, number, q, pageSize);
    OpenKept(q, pageSize);
    forall i | 0 <= i < |t.cursors| ensures CursorOk(t, i) {
      if i < |s.cursors| {
        assert CursorOk(s, i);
      }
    }
    assert forall i :: 0 <= i < |s.openedBy| ==> t.openedBy[i] == s.openedBy[i];
  }

  lemma OpeningExtends(s: Conn, number: nat, q: QueryBody, pageSize: u32)
    requires |s.cursors| == |s.openedBy|
    ensures Extends(s, Opening(s, number, q, pageSize), [])
  {
  }

  lemma OpeningKeepsInv(s: Conn, number: nat, q: QueryBody, pageSize: u32)
    requires Inv(s) && number < s.issued && number !in s.openedBy && q.id == IssuedId(s.Prefix(), number)
    ensures Inv(Opening(s, number, q, pageSize))
  {
    OpeningKeepsCursors(s, number, q, pageSize);
    OpeningExtends(s, number, q, pageSize);
    Appended(s, Opening(s, number, q, pageSize), [], []);
  }

  lemma CloseNamesOpening(s: Conn, i: nat)
    requires CursorsOk(s) && i < |s.cursors|
    ensures |s.cursors[i].pages| > 0 && s.cursors[i].pages[0].CursorHandle() == Some(s.OpeningId(i))
  {
    assert CursorOk(s, i);
  }

  // ---- paging ---------------------------------------------------------------

  /** An act of stream `i`, or its beginning at `clock`. */
  function Paged(s: Conn, i: nat, act: Paging.Act, clock: u32): Conn
    requires i < |s.cursors| == |s.clocks|
  {
    Page(s, i, act).(clocks := s.clocks[i := clock])
  }

  /** A stream begins with the prefix of its own allocator, and keeps its allocator from then on. */
  predicate Suits(s: Conn, i: nat, act: Paging.Act, clock: u32)
    requires i < |s.cursors| == |s.clocks|
  {
    if act.BeginStream? then s.cursors[i].stage == Unstreamed && act.prefix == PrefixText(clock, s.pid)
    else clock == s.clocks[i]
  }

  lemma ActKeepsPrefix(c: Cursor, act: Paging.Act)
    requires !act.BeginStream?
    ensures Step(c, act).prefix == c.prefix
    ensures Step(c, act).stage == Streaming ==> c.stage == Streaming
    ensures Step(c, act).asked > c.asked ==> c.stage == Streaming
    ensures Step(c, act).stage == Unstreamed ==> c.stage == Unstreamed
  {
  }

  lemma PagedKeepsCursor(s: Conn, i: nat, act: Paging.Act, clock: u32)
    requires CursorsOk(s) && i < |s.cursors| && Suits(s, i, act, clock)
    ensures CursorOk(Paged(s, i, act, clock), i)
  {
    var c := s.cursors[i];
    assert CursorOk(s, i);
    ActSends(c.pages[0], c.pageSize, c, act);
    if !act.BeginStream? {
      ActKeepsPrefix(c, act);
    }
  }

  lemma PagedKeepsCursors(s: Conn, i: nat, act: Paging.Act, clock: u32)
    requires CursorsOk(s) && i < |s.cursors| && Suits(s, i, act, clock)
    ensures CursorsOk(Paged(s, i, act, clock))
  {
    var t := Paged(s, i, act, clock);
    PagedKeepsCursor(s, i, act, clock);
    forall k | 0 <= k < |t.cursors| ensures CursorOk(t, k) {
      if k != i {
        assert CursorOk(s, k);
      }
    }
  }

  function ActRequests(handle: string, c: Cursor, t: Cursor): seq<Request> {
    (if t.asked > c.asked then [SqlMore(IssuedId(t.prefix, c.asked), handle, c.pageSize)] else [])
    + (if c.contId.Some? && t.contId.None? then [CloseOf(handle)] else [])
  }

  lemma PagedSends(s: Conn, i: nat, act: Paging.Act, clock: u32)
    requires CursorsOk(s) && i < |s.cursors|
    ensures var c, u := s.cursors[i], Paged(s, i, act, clock);
      && u.log == s.log + ActRequests(s.OpeningId(i), c, u.cursors[i])
      && u.origins == s.origins + ActOrigins(i, c, u.cursors[i])
  {
    var c := s.cursors[i];
    var t := Step(c, act);
    assert CursorOk(s, i);
    ActSends(c.pages[0], c.pageSize, c, act);
    CloseNamesOpening(s, i);
    var sent := ActRequests(s.OpeningId(i), c, t);
    assert t.sent == c.sent + sent;
    assert t.sent[|c.sent|..] == sent;
  }

  /** What changed about stream `i` alone. */
  ghost predicate Moved(s: Conn, u: Conn, i: nat) {
    && i < |s.cursors| == |s.openedBy| && |u.cursors| == |s.cursors| && u.cursors == s.cursors[i := u.cursors[i]]
    && u.openedBy == s.openedBy && u.pid == s.pid && u.clock == s.clock && u.issued == s.issued
    && u.handles == s.handles && u.live == s.live
    && var c, t := s.cursors[i], u.cursors[i];
    && (t.asked == c.asked || t.asked == c.asked + 1) && (c.asked > 0 ==> t.prefix == c.prefix)
    && |c.pages| > 0 && |t.pages| > 0 && t.pages[0] == c.pages[0]
    && (c.contId.Some? ==> Opens(c.pages[0])) && (c.contId.None? ==> t.contId.None?)
  }

  lemma PagedMoves(s: Conn, i: nat, act: Paging.Act, clock: u32)
    requires CursorsOk(s) && i < |s.cursors|
    ensures Moved(s, Paged(s, i, act, clock), i)
  {
    assert CursorOk(s, i);
    ActSends(s.cursors[i].pages[0], s.cursors[i].pageSize, s.cursors[i], act);
  }

  lemma MovedOrigins(s: Conn, u: Conn, i: nat)
    requires Moved(s, u, i)
    ensures var from, sent :=
      ActOrigins(i, s.cursors[i], u.cursors[i]), ActRequests(s.OpeningId(i), s.cursors[i], u.cursors[i]);
      && |from| == |sent|
      && (forall x :: 0 <= x < |from| ==> !Used(s, from[x]) && Used(u, from[x]) && sent[x].id == TextOf(u, from[x]))
      && (forall x, y :: 0 <= x < y < |from| ==> from[x] != from[y])
  {
  }

  lemma MovedExtends(s: Conn, u: Conn, i: nat)
    requires Moved(s, u, i)
    ensures Extends(s, u, ActOrigins(i, s.cursors[i], u.cursors[i]))
  {
  }

  lemma PagedKeepsInv(s: Conn, i: nat, act: Paging.Act, clock: u32)
    requires Inv(s) && i < |s.cursors| && Suits(s, i, act, clock)
    ensures Inv(Paged(s, i, act, clock))
  {
    var u := Paged(s, i, act, clock);
    PagedKeepsCursors(s, i, act, clock);
    PagedSends(s, i, act, clock);
    PagedMoves(s, i, act, clock);
    MovedOrigins(s, u, i);
    MovedExtends(s, u, i);
    Appended(s, u, ActRequests(s.OpeningId(i), s.cursors[i], u.cursors[i]), ActOrigins(i, s.cursors[i], u.cursors[i]));
  }

  lemma UnprepareExtends(s: Conn, j: nat, from: seq<Origin>)
    requires j < |s.live| == |s.handles| && s.live[j]
    requires from == if OwedClose(s.handles[j]) == [] then [] else [ForQuery(j)]
    ensures Extends(s, Unprepare(s, j), from)
  {
  }

  lemma UnprepareKeepsInv(s: Conn, j: nat)
    requires Inv(s) && j < |s.live| && s.live[j]
    ensures Inv(Unprepare(s, j))
  {
    var t, owed := Unprepare(s, j), OwedClose(s.handles[j]);
    var from := if owed == [] then [] else [ForQuery(j)];
    SameCursors(s, t);
    UnprepareExtends(s, j, from);
    Appended(s, t, owed, from);
  }

  lemma PrepareExtends(s: Conn, handle: Option<string>)
    requires |s.live| == |s.handles|
    ensures Extends(s, Next(s, Prepare(handle)), [])
  {
  }

  lemma PrepareKeepsInv(s: Conn, handle: Option<string>)
    requires Inv(s)
    ensures Inv(Next(s, Prepare(handle)))
  {
    SameCursors(s, Next(s, Prepare(handle)));
    PrepareExtends(s, handle);
    Appended(s, Next(s, Prepare(handle)), [], []);
  }

  lemma NextKeepsInv(s: Conn, m: Move)
    requires Inv(s)
    ensures Inv(Next(s, m))
  {
    match m
    case Talk(request) => SpeakKeepsInv(s, request);
    case Answered(number, q, pageSize) =>
      if number < s.issued && number !in s.openedBy && q.id == IssuedId(s.Prefix(), number) {
        OpeningKeepsInv(s, number, q, pageSize);
      }
    case Begin(i, clock) =>
      if i < |s.cursors| && s.cursors[i].stage == Unstreamed {
        PagedKeepsInv(s, i, BeginStream(PrefixText(clock, s.pid)), clock);
      }
    case Act(i, act) =>
      if i < |s.cursors| && !act.BeginStream? {
        PagedKeepsInv(s, i, act, s.clocks[i]);
        assert s.clocks[i := s.clocks[i]] == s.clocks;
      }
    case Prepare(handle) => PrepareKeepsInv(s, handle);
    case DropQuery(j) =>
      if j < |s.live| && s.live[j] {
        UnprepareKeepsInv(s, j);
      }
  }

  lemma {:induction false} LifeKeepsInv(s: Conn, moves: seq<Move>)
    requires Inv(s)
    ensures Inv(Life(s, moves))
    decreases |moves|
  {
    if moves == [] {
    } else {
      NextKeepsInv(s, moves[0]);
      LifeKeepsInv(Next(s, moves[0]), moves[1..]);
    }
  }

  // ---- what the traffic of a result set names --------------------------------

  /** What is sent for a result set or a statement names it. */
  predicate Names(s: Conn, o: Origin, r: Request) {
    match o
    case FromJob(_) => true
    case FromStream(i, _) => i < |s.openedBy| && r.SqlMore? && r.contId == s.OpeningId(i)
    case ForCursor(i) => i < |s.openedBy| && r == SqlClose("close-" + s.OpeningId(i), s.OpeningId(i))
    case ForQuery(j) =>
      j < |s.handles| && s.handles[j].Some? && r == SqlClose("close-" + s.handles[j].value, s.handles[j].value)
  }

  ghost predicate AllNamed(s: Conn) {
    |s.origins| == |s.log| && forall x :: 0 <= x < |s.log| ==> Names(s, s.origins[x], s.log[x])
  }

  lemma StillNamed(s: Conn, t: Conn, sent: seq<Request>, from: seq<Origin>)
    requires AllNamed(s) && t.log == s.log + sent && t.origins == s.origins + from && |sent| == |from|
    requires t.pid == s.pid && t.clock == s.clock && s.openedBy <= t.openedBy && s.handles <= t.handles
    requires forall x :: 0 <= x < |from| ==> Names(t, from[x], sent[x])
    ensures AllNamed(t)
  {
    forall x | 0 <= x < |t.log| ensures Names(t, t.origins[x], t.log[x]) {
      if x < |s.log| {
        assert Names(s, s.origins[x], s.log[x]);
      } else {
        assert t.origins[x] == from[x - |s.log|] && t.log[x] == sent[x - |s.log|];
      }
    }
  }

  lemma PagedNames(s: Conn, i: nat, act: Paging.Act, clock: u32)
    requires Inv(s) && AllNamed(s) && i < |s.cursors|
    ensures AllNamed(Paged(s, i, act, clock))
  {
    var u := Paged(s, i, act, clock);
    var from := ActOrigins(i, s.cursors[i], u.cursors[i]);
    var sent := ActRequests(s.OpeningId(i), s.cursors[i], u.cursors[i]);
    PagedSends(s, i, act, clock);
    StillNamed(s, u, sent, from);
  }

  lemma NextKeepsNames(s: Conn, m: Move)
    requires Inv(s) && AllNamed(s)
    ensures AllNamed(Next(s, m))
  {
    var t := Next(s, m);
    match m
    case Talk(request) => StillNamed(s, t, [request.(id := IssuedId(s.Prefix(), s.issued))], [FromJob(s.issued)]);
    case Answered(_, _, _) => StillNamed(s, t, [], []);
    case Begin(i, clock) =>
      if i < |s.cursors| && s.cursors[i].stage == Unstreamed {
        PagedNames(s, i, BeginStream(PrefixText(clock, s.pid)), clock);
      }
    case Act(i, act) =>
      if i < |s.cursors| && !act.BeginStream? {
        PagedNames(s, i, act, s.clocks[i]);
        assert s.clocks[i := s.clocks[i]] == s.clocks;
      }
    case Prepare(_) => StillNamed(s, t, [], []);
    case DropQuery(j) =>
      if j < |s.live| && s.live[j] {
        var owed := OwedClose(s.handles[j]);
        StillNamed(s, t, owed, if owed == [] then [] else [ForQuery(j)]);
      }
  }

  lemma {:induction false} LifeKeepsNames(s: Conn, moves: seq<Move>)
    requires Inv(s) && AllNamed(s)
    ensures AllNamed(Life(s, moves))
    decreases |moves|
  {
    if moves == [] {
    } else {
      NextKeepsInv(s, moves[0]);
      NextKeepsNames(s, moves[0]);
      LifeKeepsNames(Next(s, moves[0]), moves[1..]);
    }
  }

  /**
    Over every interleaving: each `sqlmore` and each close that a result set
    sends names the request that opened it on this connection, and each close of
    a prepared statement names the handle the daemon gave for it.
   */
  lemma TrafficNamesItsCursor(pid: u32, clock: u32, moves: seq<Move>)
    ensures AllNamed(Life(Fresh(pid, clock), moves))
  {
    LifeKeepsNames(Fresh(pid, clock), moves);
  }

  // ---- exactly when ids are distinct ----------------------------------------

  predicate Asking(s: Conn, i: nat) {
    i < |s.cursors| && s.cursors[i].asked > 0
  }

  /**
    What the clock and the daemon must provide: no allocator issues more than
    2^64 ids, the allocators in use were made at different sub-second times, and
    the handles that were closed differ from each other and from the opening ids
    of the cursors that were closed.
   */
  ghost predicate Apart(s: Conn) {
    && s.issued <= WRAPAROUND
    && (forall i: nat :: Asking(s, i) ==> s.cursors[i].asked <= WRAPAROUND && i < |s.clocks| && s.clocks[i] != s.clock)
    && (forall i: nat, j: nat :: i < j && Asking(s, i) && Asking(s, j) && j < |s.clocks| ==> s.clocks[i] != s.clocks[j])
    && (forall j: nat, k: nat :: j < k && QueryClosed(s, j) && QueryClosed(s, k) ==> s.handles[j] != s.handles[k])
    && (forall j: nat, i: nat :: QueryClosed(s, j) && CursorClosed(s, i) && i < |s.openedBy| ==>
          s.handles[j].value != s.OpeningId(i))
  }

  lemma Small(n: nat)
    requires n < WRAPAROUND
    ensures n % WRAPAROUND == n
  {
  }

  lemma SameNumber(p: string, m: nat, n: nat)
    requires IsHex(p) && m < WRAPAROUND && n < WRAPAROUND && IssuedId(p, m) == IssuedId(p, n)
    ensures m == n
  {
    Small(m);
    Small(n);
    IdInjective(p, m, p, n);
  }

  lemma SameClock(pid: u32, a: u32, m: nat, b: u32, n: nat)
    requires IssuedId(PrefixText(a, pid), m) == IssuedId(PrefixText(b, pid), n)
    ensures a == b
  {
    PrefixShape(a, pid);
    PrefixShape(b, pid);
    IssuedIdsCollide(PrefixText(a, pid), m, PrefixText(b, pid), n);
    PrefixesCollide(a, pid, b, pid);
  }

  /** An issued id begins with hexadecimal digits where a close id has a letter that is none. */
  lemma CloseIdsApart(clock: u32, pid: u32, n: nat, handle: string)
    ensures IssuedId(PrefixText(clock, pid), n) != "close-" + handle
  {
    var p := PrefixText(clock, pid);
    PrefixShape(clock, pid);
    assert IssuedId(p, n)[1] == p[1] && ("close-" + handle)[1] == 'l';
  }

  lemma SameClose(a: string, b: string)
    requires "close-" + a == "close-" + b
    ensures a == b
  {
    assert a == ("close-" + a)[6..] && b == ("close-" + b)[6..];
  }

  predicate Issues(o: Origin) {
    o.FromJob? || o.FromStream?
  }

  /** The time at which the allocator behind an issued id was made. */
  function ClockOf(s: Conn, o: Origin): u32
    requires CursorsOk(s) && Used(s, o) && Issues(o)
  {
    if o.FromJob? then s.clock else s.clocks[o.cursor]
  }

  lemma IssuedText(s: Conn, o: Origin)
    requires CursorsOk(s) && Used(s, o) && Issues(o)
    ensures TextOf(s, o) == IssuedId(PrefixText(ClockOf(s, o), s.pid), o.n)
  {
    if o.FromStream? {
      assert CursorOk(s, o.cursor);
    }
  }

  lemma IssuedOriginsApart(s: Conn, o: Origin, p: Origin)
    requires Apart(s) && CursorsOk(s) && Used(s, o) && Used(s, p) && Issues(o) && Issues(p)
    requires TextOf(s, o) == TextOf(s, p)
    ensures o == p
  {
    IssuedText(s, o);
    IssuedText(s, p);
    SameClock(s.pid, ClockOf(s, o), o.n, ClockOf(s, p), p.n);
    PrefixShape(ClockOf(s, o), s.pid);
    assert o.FromStream? ==> Asking(s, o.cursor);
    assert p.FromStream? ==> Asking(s, p.cursor);
    SameNumber(PrefixText(ClockOf(s, o), s.pid), o.n, p.n);
  }

  lemma ClosingOriginsApart(s: Conn, o: Origin, p: Origin)
    requires Apart(s) && CursorsOk(s) && Used(s, o) && Used(s, p) && !Issues(o) && !Issues(p)
    requires TextOf(s, o) == TextOf(s, p)
    ensures o == p
  {
    var a := if o.ForCursor? then s.OpeningId(o.cursor) else s.handles[o.query].value;
    var b := if p.ForCursor? then s.OpeningId(p.cursor) else s.handles[p.query].value;
    SameClose(a, b);
    if o.ForCursor? && p.ForCursor? {
      assert CursorOk(s, o.cursor) && CursorOk(s, p.cursor);
      PrefixShape(s.clock, s.pid);
      SameNumber(s.Prefix(), s.openedBy[o.cursor], s.openedBy[p.cursor]);
    }
  }

  lemma OriginsApart(s: Conn, o: Origin, p: Origin)
    requires Apart(s) && CursorsOk(s) && Used(s, o) && Used(s, p) && TextOf(s, o) == TextOf(s, p)
    ensures o == p
  {
    if Issues(o) && Issues(p) {
      IssuedOriginsApart(s, o, p);
    } else if !Issues(o) && !Issues(p) {
      ClosingOriginsApart(s, o, p);
    } else {
      var issues, closes := if Issues(o) then o else p, if Issues(o) then p else o;
      IssuedText(s, issues);
      CloseIdsApart(ClockOf(s, issues), s.pid, issues.n,
        if closes.ForCursor? then s.OpeningId(closes.cursor) else s.handles[closes.query].value);
    }
  }

  lemma SameIdTwice(log: seq<Request>, x: nat, y: nat)
    requires x < y < |log| && log[x].id == log[y].id
    ensures !DispatchRefinement.DistinctIds(log)
  {
  }

  /** Two used origins of one text show up as two requests with one id. */
  lemma Clash(s: Conn, o: Origin, p: Origin)
    requires OriginsOk(s) && Used(s, o) && Used(s, p) && o != p && TextOf(s, o) == TextOf(s, p)
    ensures !DispatchRefinement.DistinctIds(s.log)
  {
    assert o in s.origins && p in s.origins;
    var x :| 0 <= x < |s.origins| && s.origins[x] == o;
    var y :| 0 <= y < |s.origins| && s.origins[y] == p;
    SameIdTwice(s.log, if x < y then x else y, if x < y then y else x);
  }

  lemma WrapsAround(p: string)
    ensures IssuedId(p, 0) == IssuedId(p, WRAPAROUND)
  {
  }

  /** Whatever `Apart` asks for and does not hold makes two ids equal. */
  lemma ApartIsNeeded(s: Conn)
    requires Inv(s) && DispatchRefinement.DistinctIds(s.log)
    ensures Apart(s)
  {
    if s.issued > WRAPAROUND {
      WrapsAround(s.Prefix());
      Clash(s, FromJob(0), FromJob(WRAPAROUND));
    }
    forall i: nat | Asking(s, i)
      ensures s.cursors[i].asked <= WRAPAROUND && i < |s.clocks| && s.clocks[i] != s.clock
    {
      StreamApart(s, i);
    }
    forall i: nat, j: nat | i < j && Asking(s, i) && Asking(s, j) && j < |s.clocks| ensures s.clocks[i] != s.clocks[j] {
      assert CursorOk(s, i) && CursorOk(s, j);
      if s.clocks[i] == s.clocks[j] {
        Clash(s, FromStream(i, 0), FromStream(j, 0));
      }
    }
    forall j: nat, k: nat | j < k && QueryClosed(s, j) && QueryClosed(s, k) ensures s.handles[j] != s.handles[k] {
      if s.handles[j] == s.handles[k] {
        Clash(s, ForQuery(j), ForQuery(k));
      }
    }
    forall j: nat, i: nat | QueryClosed(s, j) && CursorClosed(s, i) && i < |s.openedBy|
      ensures s.handles[j].value != s.OpeningId(i)
    {
      if s.handles[j].value == s.OpeningId(i) {
        Clash(s, ForQuery(j), ForCursor(i));
      }
    }
  }

  lemma StreamApart(s: Conn, i: nat)
    requires Inv(s) && DispatchRefinement.DistinctIds(s.log) && Asking(s, i)
    ensures s.cursors[i].asked <= WRAPAROUND && s.clocks[i] != s.clock
  {
    assert CursorOk(s, i);
    if s.cursors[i].asked > WRAPAROUND {
      WrapsAround(s.cursors[i].prefix);
      Clash(s, FromStream(i, 0), FromStream(i, WRAPAROUND));
    }
    if s.clocks[i] == s.clock {
      Clash(s, FromJob(0), FromStream(i, 0));
    }
  }

  /**
    However calls, pages, drops and prepared statements interleave on a
    connection: no two requests it sends have the same id if and only if the
    allocators in use were made at different sub-second times and stay within
    2^64 ids, and the closed handles differ from each other and from the opening
    ids of closed cursors.
   */
  lemma ConnectionIdsDistinct(pid: u32, clock: u32, moves: seq<Move>)
    ensures DispatchRefinement.DistinctIds(Life(Fresh(pid, clock), moves).log) <==>
      Apart(Life(Fresh(pid, clock), moves))
  {
    var s := Life(Fresh(pid, clock), moves);
    LifeKeepsInv(Fresh(pid, clock), moves);
    if Apart(s) {
      forall x, y | 0 <= x < y < |s.log| ensures s.log[x].id != s.log[y].id {
        if s.log[x].id == s.log[y].id {
          OriginsApart(s, s.origins[x], s.origins[y]);
        }
      }
    }
    if DispatchRefinement.DistinctIds(s.log) {
      ApartIsNeeded(s);
    }
  }

  /**
    In particular two allocators that both issue ids and were made at one sub-second
    time repeat an id: whichever two they are.
   */
  lemma SharedClockRepeatsId(pid: u32, clock: u32, moves: seq<Move>, i: nat, j: nat)
    requires var s := Life(Fresh(pid, clock), moves);
      && Asking(s, i) && i < |s.clocks|
      && (s.clocks[i] == s.clock || (i < j < |s.clocks| && Asking(s, j) && s.clocks[i] == s.clocks[j]))
    ensures !DispatchRefinement.DistinctIds(Life(Fresh(pid, clock), moves).log)
  {
    ConnectionIdsDistinct(pid, clock, moves);
  }

  lemma SameIssuedId(pid: u32, a: u32, m: nat, b: u32, n: nat)
    ensures IssuedId(PrefixText(a, pid), m) == IssuedId(PrefixText(b, pid), n) <==>
      a == b && m % WRAPAROUND == n % WRAPAROUND
  {
    PrefixShape(a, pid);
    PrefixShape(b, pid);
    PrefixesCollide(a, pid, b, pid);
    IssuedIdsCollide(PrefixText(a, pid), m, PrefixText(b, pid), n);
    SameResidue(m, n);
  }

  lemma RepeatsOpening(s: Conn, i: nat, n: nat)
    requires CursorsOk(s) && Used(s, FromStream(i, n))
    ensures TextOf(s, FromStream(i, n)) == s.OpeningId(i) <==>
      s.clocks[i] == s.clock && n % WRAPAROUND == s.openedBy[i] % WRAPAROUND
  {
    IssuedText(s, FromStream(i, n));
    SameIssuedId(s.pid, s.clocks[i], n, s.clock, s.openedBy[i]);
  }

  /**
    Which `sqlmore` of a stream repeats the id of the stream's opening request,
    exactly: if the stream's allocator was made at the job's sub-second time, the
    one with the opening request's number modulo 2^64, and otherwise none.
   */
  lemma MoreRepeatsOpening(pid: u32, clock: u32, moves: seq<Move>, s: Conn, i: nat, n: nat)
    requires s == Life(Fresh(pid, clock), moves) && Used(s, FromStream(i, n))
    ensures i < |s.clocks| == |s.openedBy|
    ensures TextOf(s, FromStream(i, n)) == s.OpeningId(i) <==>
      s.clocks[i] == clock && n % WRAPAROUND == s.openedBy[i] % WRAPAROUND
  {
    LifeKeepsInv(Fresh(pid, clock), moves);
    LifeKeepsJob(Fresh(pid, clock), moves);
    RepeatsOpening(s, i, n);
  }

  lemma {:induction false} LifeKeepsJob(s: Conn, moves: seq<Move>)
    ensures Life(s, moves).pid == s.pid && Life(s, moves).clock == s.clock
    decreases |moves|
  {
    if moves == [] {
    } else {
      LifeKeepsJob(Next(s, moves[0]), moves[1..]);
    }
  }

  /**
    A shared clock shows at once: request 0 is the connection's handshake, request
    1 opens a result set, and the first `sqlmore` repeats the handshake's id.
   */
  lemma FirstMoreRepeatsId(pid: u32, clock: u32, connect: Request, opening: Request, q: QueryBody, pageSize: u32,
                           moves: seq<Move>)
    requires connect.Connect? && q.id == IssuedId(PrefixText(clock, pid), 1) && !q.isDone && q.data == []
    requires |moves| == 5 && moves[0] == Talk(connect) && moves[1] == Talk(opening)
    requires moves[2] == Answered(1, q, pageSize) && moves[3] == Begin(0, clock)
    requires moves[4] == Act(0, Poll(CLOSED_OUTCOME))
    ensures var log := Life(Fresh(pid, clock), moves).log;
      && |log| == 3 && log[1] == opening.(id := q.id) && log[2] == SqlMore(log[0].id, q.id, pageSize)
      && log[2].id == log[0].id && log[2].id != log[1].id
  {
    var s := Next(Next(Fresh(pid, clock), moves[0]), moves[1]);
    Unrolled(Fresh(pid, clock), moves);
    TwoTalks(pid, clock, connect, opening, s);
    StreamAtOnce(s, 1, q, pageSize);
    SameIssuedId(pid, clock, 0, clock, 1);
  }

  lemma TwoTalks(pid: u32, clock: u32, one: Request, two: Request, s: Conn)
    requires s == Speak(Speak(Fresh(pid, clock), one), two)
    ensures s.pid == pid && s.clock == clock && s.issued == 2
    ensures s.cursors == [] && s.openedBy == [] && s.clocks == [] && |s.log| == 2
    ensures s.log[0].id == IssuedId(PrefixText(clock, pid), 0)
    ensures s.log[1] == two.(id := IssuedId(PrefixText(clock, pid), 1))
  {
  }

  /** The first poll of a connection's first stream, made at the job's sub-second time. */
  lemma StreamAtOnce(s: Conn, number: nat, q: QueryBody, pageSize: u32)
    requires s.cursors == [] && s.openedBy == [] && s.clocks == [] && number < s.issued
    requires q.id == IssuedId(s.Prefix(), number) && !q.isDone && q.data == []
    ensures Next(Next(Next(s, Answered(number, q, pageSize)), Begin(0, s.clock)), Act(0, Poll(CLOSED_OUTCOME))).log ==
      s.log + [SqlMore(IssuedId(s.Prefix(), 0), q.id, pageSize)]
  {
    PrefixShape(s.clock, s.pid);
    var t := Next(Next(s, Answered(number, q, pageSize)), Begin(0, s.clock));
    assert t.cursors == [Step(Open(q, pageSize), BeginStream(s.Prefix()))];
    assert t.log == s.log + [] == s.log;
  }

  lemma Unrolled(s: Conn, moves: seq<Move>)
    requires |moves| == 5
    ensures Life(s, moves) == Next(Next(Next(Next(Next(s, moves[0]), moves[1]), moves[2]), moves[3]), moves[4])
  {
    var s1 := Next(s, moves[0]);
    var s2 := Next(s1, moves[1]);
    var s3 := Next(s2, moves[2]);
    var s4 := Next(s3, moves[3]);
    assert Life(s, moves) == Life(s1, moves[1..]);
    assert moves[1..][1..] == moves[2..] && moves[2..][1..] == moves[3..];
    assert moves[3..][1..] == moves[4..] && moves[4..][1..] == [];
    assert Life(s1, moves[1..]) == Life(s2, moves[2..]) == Life(s3, moves[3..]);
    assert Life(s3, moves[3..]) == Life(s4, moves[4..]) == Life(Next(s4, moves[4]), []);
  }

  // ---- what the dispatcher makes of it --------------------------------------

  /** The requests handed to the dispatcher, in order. */
  function Submissions(events: seq<Dispatch.Event>): seq<Request> {
    if events == [] then []
    else
      var rest := Submissions(events[..|events| - 1]);
      if events[|events| - 1].Submitted? then rest + [events[|events| - 1].request] else rest
  }

  lemma {:induction false} HistoryIsSubmissions(events: seq<Dispatch.Event>)
    ensures Dispatch.Run(Dispatch.INIT, events).history == Submissions(events)
  {
    if events == [] {
    } else {
      HistoryIsSubmissions(events[..|events| - 1]);
      DispatchRefinement.StepKeepsHistory(Dispatch.Run(Dispatch.INIT, events[..|events| - 1]), events[|events| - 1]);
    }
  }

  lemma {:induction false} TwoOccurrences(s: seq<Request>, r: Request) returns (x: nat, y: nat)
    requires multiset(s)[r] >= 2
    ensures x < y < |s| && s[x] == r && s[y] == r
  {
    var n := |s| - 1;
    assert s == s[..n] + [s[n]];
    if s[n] == r {
      assert r in multiset(s[..n]);
      x :| 0 <= x < n && s[..n][x] == r;
      y := n;
    } else {
      x, y := TwoOccurrences(s[..n], r);
    }
  }

  /** Handing over some of the requests, in any order, keeps their ids distinct. */
  lemma SomeStayDistinct(some: seq<Request>, log: seq<Request>)
    requires DispatchRefinement.DistinctIds(log) && multiset(some) <= multiset(log)
    ensures DispatchRefinement.DistinctIds(some)
  {
    forall i, j | 0 <= i < j < |some| ensures some[i].id != some[j].id {
      if some[i].id == some[j].id {
        assert some[i] in multiset(some) && some[j] in multiset(some);
        assert some[i] in log && some[j] in log;
        assert some[i] == some[j];
        assert some == some[..j] + [some[j]] + some[j + 1..];
        assert some[i] in some[..j];
        var x, y := TwoOccurrences(log, some[i]);
      }
    }
  }

  /**
    The dispatcher's own assumption is met: whichever of the connection's
    requests reach it, in whatever order the spawned closes run, and whatever
    else happens to it, it works on distinct ids, and so its counter follows the
    number of requests outstanding from the base that reservations and undrained
    exits set.
   */
  lemma ConnectionKeepsCount(pid: u32, clock: u32, moves: seq<Move>, events: seq<Dispatch.Event>)
    requires Apart(Life(Fresh(pid, clock), moves))
    requires multiset(Submissions(events)) <= multiset(Life(Fresh(pid, clock), moves).log)
    ensures DispatchRefinement.DistinctIds(Dispatch.Run(Dispatch.INIT, events).history)
    ensures DispatchCounter.Counts(Dispatch.Run(Dispatch.INIT, events), DispatchCounter.Base(events))
  {
    ConnectionIdsDistinct(pid, clock, moves);
    SomeStayDistinct(Submissions(events), Life(Fresh(pid, clock), moves).log);
    HistoryIsSubmissions(events);
    DispatchCounter.CounterLaw(events);
  }
}
