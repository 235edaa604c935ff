/** From the moment a request is submitted to what its caller holds, across the dispatcher and the wire dialects. */
module EndToEnd {
  import opened Wrappers
  import opened Json
  import opened Protocol
  import opened Decode
  import opened Encode
  import opened Correlation
  import opened Dispatch
  import opened DispatchInvariant
  import opened DispatchRefinement
  import opened DispatchOutcomes
  import opened Spellings
  import LiveDialect
  import NamedRows
  import Codec
  import Collecting
  import Paging
  import Query
  import TaggedRoundTrip

  // ---- a request's whole life -----------------------------------------------

  lemma {:induction false} RunOn(s: State, first: seq<Event>, later: seq<Event>)
    ensures Run(s, first + later) == Run(Run(s, first), later)
    ensures Feasible(s, first + later) ==> Feasible(s, first) && Feasible(Run(s, first), later)
  {
    if later == [] {
      assert first + later == first;
    } else {
      var init, last := later[..|later| - 1], later[|later| - 1];
      assert (first + later)[..|first + later| - 1] == first + init;
      assert (first + later)[|first + later| - 1] == last;
      RunOn(s, first, init);
    }
  }

  lemma SubmittedPhase(s: State, request: Request)
    requires Inv(s)
    ensures var t := Submit(s, request);
      |t.history| == |s.history| + 1 && t.history[|s.history|] == request
      && PhaseOf(t, |s.history|) == if s.running then Queued(|s.queue|) else Settled(CLOSED_OUTCOME)
  {
    var t, slot := Submit(s, request), |s.history|;
    assert slot !in s.spent && slot !in s.cancelled;
    if s.running {
      assert !IsPending(t, slot);
      SubmitKeepsInv(s, request);
      AheadUnique(t.queue, slot, |s.queue|);
    }
  }

  lemma StartsFrom(prior: seq<Event>, request: Request, later: seq<Event>)
    requires Feasible(INIT, prior + [Submitted(request)] + later)
    ensures var t := Submit(Run(INIT, prior), request);
      Run(INIT, prior + [Submitted(request)] + later) == Run(t, later) && Feasible(t, later)
  {
    RunOn(INIT, prior + [Submitted(request)], later);
    RunOn(INIT, prior, [Submitted(request)]);
    assert [Submitted(request)][..0] == [];
    assert Run(Run(INIT, prior), [Submitted(request)]) == Step(Run(INIT, prior), Submitted(request));
  }

  /**
    For every trace with distinct ids, what becomes of a submitted request is
    what the one-request automaton makes of the events after the submission,
    starting behind the requests that are queued then.
   */
  lemma SubmissionRefinesFate(prior: seq<Event>, request: Request, later: seq<Event>, slot: nat)
    requires Feasible(INIT, prior + [Submitted(request)] + later)
    requires DistinctIds(Run(INIT, prior + [Submitted(request)] + later).history)
    requires slot == |Run(INIT, prior).history|
    ensures var s := Run(INIT, prior);
      PhaseOf(Run(INIT, prior + [Submitted(request)] + later), slot) ==
        Fate(if s.running then Queued(|s.queue|) else Settled(CLOSED_OUTCOME), slot, request, later)
  {
    var s := Run(INIT, prior);
    RunKeepsInv(INIT, prior);
    StartsFrom(prior, request, later);
    SubmitKeepsInv(s, request);
    SubmittedPhase(s, request);
    RunRefinesFate(Submit(s, request), later, slot);
  }

  // ---- what the caller holds ------------------------------------------------

  lemma FrameReachesCaller(s: State, events: seq<Event>, slot: nat, at: nat, v: Json)
    requires Inv(s) && Feasible(s, events) && DistinctIds(Run(s, events).history)
    requires IsPending(s, slot) && slot !in s.cancelled
    requires at < |events| && events[at] == Frame(Arrive(v)) && Route(Arrive(v)) == Some(s.history[slot].id)
    requires forall i :: 0 <= i < at ==> !Decides(s.history[slot], events[i]) && events[i] != Cancelled(slot)
    ensures slot in Run(s, events).replies
    ensures Run(s, events).replies[slot] == Answer(KindOf(s.history[slot]), Arrive(v))
  {
    ReplyIsFirstDecision(s, events, slot, at);
  }

  /**
    When the first thing that decides a waiting request is the live daemon's
    answer to it, by whichever names and with whatever other keys, its caller gets
    the variant it matches on, under its own id.
   */
  lemma LiveReplyReachesCaller(s: State, events: seq<Event>, slot: nat, at: nat, r: Response, names: Names,
                               extras: Fields)
    requires Inv(s) && Feasible(s, events) && DistinctIds(Run(s, events).history)
    requires IsPending(s, slot) && slot !in s.cancelled
    requires LiveDialect.Answers(s.history[slot], r) && ResponseId(r) == s.history[slot].id
    requires extras.Keys !! LiveDialect.OwnKeys(r)
    requires at < |events| && events[at] == Frame(Arrive(LiveDialect.LiveFrame(r, names, extras)))
    requires forall i :: 0 <= i < at ==> !Decides(s.history[slot], events[i]) && events[i] != Cancelled(slot)
    ensures slot in Run(s, events).replies
    ensures Run(s, events).replies[slot] == Ok(LiveDialect.Heard(r))
  {
    var v := LiveDialect.LiveFrame(r, names, extras);
    LiveDialect.LiveAnswerReachesCaller(s.history[slot], r, names, extras, v);
    LiveRoute(s.history[slot], r, v);
    FrameReachesCaller(s, events, slot, at, v);
  }

  /** What answers a request is routed by its id. */
  lemma LiveRoute(request: Request, r: Response, v: Json)
    requires Answer(KindOf(request), Arrive(v)) == Ok(LiveDialect.Heard(r))
    requires ResponseId(LiveDialect.Heard(r)) == request.id
    ensures Route(Arrive(v)) == Some(request.id)
  {
  }

  /**
    A tagged reply without present `null`s arrives as it was sent, but for a
    bare acknowledgement, which its request's caller reads as its own.
   */
  lemma TaggedReplyReachesCaller(s: State, events: seq<Event>, slot: nat, at: nat, r: Response)
    requires Inv(s) && Feasible(s, events) && DistinctIds(Run(s, events).history)
    requires IsPending(s, slot) && slot !in s.cancelled
    requires ResponseId(r) == s.history[slot].id && TaggedRoundTrip.NoPresentNull(r)
    requires at < |events| && events[at] == Frame(Arrive(EncodeTagged(r)))
    requires forall i :: 0 <= i < at ==> !Decides(s.history[slot], events[i]) && events[i] != Cancelled(slot)
    ensures slot in Run(s, events).replies
    ensures Run(s, events).replies[slot] == Ok(Meant(s.history[slot], r))
    ensures !r.Pong? && !r.Connected? ==> Run(s, events).replies[slot] == Ok(r)
  {
    TaggedRoundTrip.TaggedRoundTrip(r);
    RemapMeans(s.history[slot], r);
    FrameReachesCaller(s, events, slot, at, EncodeTagged(r));
  }

  // ---- what the caller makes of it ------------------------------------------

  /** How the daemon spells a page: the JSON of its rows, objects and arrays mixed at will, names and extra keys. */
  datatype Spelled = Spelled(rows: seq<Json>, names: Names, extras: Fields)

  predicate Spells(page: QueryBody, w: Spelled) {
    w.extras.Keys !! LiveDialect.OwnKeys(QueryResult(page)) &&
    NamedRows.Named(page.metadata.columns, w.rows) == Ok(page.data)
  }

  function FrameOf(page: QueryBody, w: Spelled): Json {
    Obj(w.extras + Respelled(LiveDialect.PageSpelled(page, w.rows), w.names))
  }

  lemma SpelledAnswer(request: Request, page: QueryBody, w: Spelled, v: Json)
    requires LiveDialect.AwaitsPage(request) && Spells(page, w) && v == FrameOf(page, w)
    ensures Answer(KindOf(request), Arrive(v)) == Ok(QueryResult(LiveDialect.HeardPage(page)))
    ensures Route(Arrive(v)) == Some(page.id)
  {
    LiveDialect.SpelledPageHeard(w.extras, page, w.rows, w.names);
    assert page.(data := page.data) == page;
    LiveDialect.PageAnswered(request, v, Ok(LiveDialect.HeardPage(page)));
  }

  /**
    Whatever statement it answers: a live opening page, which spells out its end flag
    only when it is set, opens a cursor exactly when it is not the last page
    of a result set. An update never does.
   */
  lemma LivePageOpensCursor(id: string, st: Query.Statement, opts: Query.ExecuteOptions, request: Request,
                            q: QueryBody, w: Spelled, pageSize: u32)
    requires Query.OpeningRequest(id, st, opts) == Ok(request)
    requires id != "" && q.id == id && Spells(q, w)
    ensures var reply := Answer(KindOf(request), Arrive(FrameOf(q, w)));
      && Query.Opened(id, reply, pageSize) == Ok(Paging.Open(LiveDialect.HeardPage(q), pageSize))
      && (Paging.Opens(LiveDialect.HeardPage(q)) <==> !q.isDone && (q.hasResults || q.data != []))
  {
    OpeningAwaitsPage(id, st, opts, request);
    SpelledAnswer(request, q, w, FrameOf(q, w));
  }

  lemma OpeningAwaitsPage(id: string, st: Query.Statement, opts: Query.ExecuteOptions, request: Request)
    requires Query.OpeningRequest(id, st, opts) == Ok(request)
    ensures LiveDialect.AwaitsPage(request)
  {
  }

  /** A live failure of the opening request is the caller's error, with its code and state; nothing is opened. */
  lemma LiveFailureOpensNothing(id: string, st: Query.Statement, opts: Query.ExecuteOptions, request: Request,
                                e: ErrorBody, names: Names, extras: Fields, v: Json, pageSize: u32)
    requires Query.OpeningRequest(id, st, opts) == Ok(request) && !e.success
    requires extras.Keys !! LiveDialect.OwnKeys(Error(e)) && v == LiveDialect.LiveFrame(Error(e), names, extras)
    ensures Query.Opened(id, Answer(KindOf(request), Arrive(v)), pageSize) == Err(Server(e))
  {
    LiveDialect.LiveAnswerReachesCaller(request, Error(e), names, extras, v);
  }

  /**
    A live reply to `prepare_sql` gives the statement the daemon's handle, and dropping
    it closes that handle; an empty handle is none.
   */
  lemma LivePrepareGivesHandle(request: Request, contId: string, time: real, names: Names, extras: Fields, v: Json)
    requires request.PrepareSql?
    requires extras.Keys !! LiveDialect.OwnKeys(PreparedStatement(request.id, true, contId, time))
    requires v == LiveDialect.LiveFrame(PreparedStatement(request.id, true, contId, time), names, extras)
    ensures Query.PreparedHandle(request.id, Answer(KindOf(request), Arrive(v))) ==
      Ok(if contId == "" then None else Some(contId))
    ensures Query.OwedClose(Some(contId)) == if contId == "" then [] else [SqlClose("close-" + contId, contId)]
  {
    LiveDialect.LiveAnswerReachesCaller(request, PreparedStatement(request.id, true, contId, time), names, extras, v);
  }

  /** A bare acknowledgement of `prepare_sql` yields a statement kept client-side, whose drop sends nothing. */
  lemma BareAckPreparesLocally(request: Request, extras: Fields)
    requires request.PrepareSql? && extras.Keys !! LiveDialect.DISCRIMINATORS + {"id"}
    ensures var v := Obj(extras + map["id" := Str(request.id), "success" := Bool(true)]);
      Query.PreparedHandle(request.id, Answer(KindOf(request), Arrive(v))) == Ok(None) && Query.OwedClose(None) == []
  {
    LiveDialect.BareAckReachesCaller(request, request.id, extras);
  }

  // ---- a whole result set over one connection -------------------------------

  /**
    The first thing in `later` that decides the waiting request in `slot` is a live frame of `page`, at `at`: with any
    harmless extra keys, and with its rows spelled in any way that names them.
   */
  ghost predicate Brings(s: State, later: seq<Event>, slot: nat, page: QueryBody, at: nat, spelled: Spelled) {
    && IsPending(s, slot) && slot !in s.cancelled && Spells(page, spelled)
    && at < |later| && later[at] == Frame(Arrive(FrameOf(page, spelled)))
    && forall i :: 0 <= i < at ==> !Decides(s.history[slot], later[i]) && later[i] != Cancelled(slot)
  }

  lemma CutAt(events: seq<Event>, at: nat)
    requires at <= |events|
    ensures events == events[..at] + events[at..]
  {
  }

  lemma {:induction false} CutRun(events: seq<Event>, first: seq<Event>, later: seq<Event>, s: State, t: State)
    requires events == first + later && Feasible(INIT, events) && s == Run(INIT, first) && t == Run(INIT, events)
    ensures t == Run(s, later) && Feasible(s, later) && Inv(s)
    ensures |s.history| <= |t.history| && s.history == t.history[..|s.history|]
  {
    RunOn(INIT, first, later);
    RunKeepsInv(INIT, first);
    HistoryGrows(s, later);
  }

  lemma BroughtPage(s: State, later: seq<Event>, t: State, slot: nat, page: QueryBody, at: nat, spelled: Spelled)
    requires Inv(s) && Feasible(s, later) && t == Run(s, later) && DistinctIds(t.history)
    requires Brings(s, later, slot, page, at, spelled)
    requires s.history[slot].SqlMore? && s.history[slot].id == page.id
    ensures slot in t.replies && t.replies[slot] == Ok(QueryResult(LiveDialect.HeardPage(page)))
  {
    var v := FrameOf(page, spelled);
    SpelledAnswer(s.history[slot], page, spelled, v);
    FrameReachesCaller(s, later, slot, at, v);
  }

  /** Each page carries the id of the `sqlmore` it answers, the first of them being number `k`. */
  predicate Numbered(prefix: string, pages: seq<QueryBody>, k: nat) {
    forall i :: 0 <= i < |pages| ==> pages[i].id == Codec.IssuedId(prefix, k + i)
  }

  lemma {:induction false} AlreadyStamped(prefix: string, pages: seq<QueryBody>, k: nat)
    requires Numbered(prefix, pages, k)
    ensures Collecting.Stamped(prefix, pages, k) == pages
  {
    if pages == [] {
    } else {
      assert pages[0].id == Codec.IssuedId(prefix, k + 0);
      forall i | 0 <= i < |pages| - 1 ensures pages[1..][i].id == Codec.IssuedId(prefix, k + 1 + i) {
        assert pages[i + 1].id == Codec.IssuedId(prefix, k + (i + 1));
      }
      AlreadyStamped(prefix, pages[1..], k + 1);
    }
  }

  lemma {:induction false} RepliesAre(pages: seq<QueryBody>)
    ensures |Collecting.Replies(pages)| == |pages|
    ensures forall k :: 0 <= k < |pages| ==> Collecting.Replies(pages)[k] == Ok(QueryResult(pages[k]))
  {
    if pages == [] {
    } else {
      RepliesAre(pages[1..]);
    }
  }

  /** Collecting heard pages that carry the ids of the `sqlmore` requests they answer. */
  lemma {:induction false} HeardResultSet(q: QueryBody, pageSize: u32, prefix: string, heard: seq<QueryBody>)
    requires Paging.Opens(q) && Collecting.Script(q.isDone, heard)
    requires Numbered(prefix, heard, 0)
    ensures var (result, end) :=
      Collecting.Collect(Collecting.Begin(q, pageSize, prefix), Collecting.Replies(heard), []);
      && result == Collecting.Complete(Collecting.Flat([q] + heard))
      && end.sent == Paging.Mores(prefix, q.CursorHandle().value, pageSize, |heard|)
  {
    AlreadyStamped(prefix, heard, 0);
    Collecting.ServedResultSet(q, pageSize, prefix, heard, []);
    assert Collecting.Replies(heard) + [] == Collecting.Replies(heard);
  }

  /**
    How one page comes in: the slot of its `sqlmore`, a point of the run at which
    that request is on the wire, and how many events later its live frame,
    however spelled, is the first thing to decide it.
   */
  datatype Fetch = Fetch(slot: nat, cut: nat, at: nat, page: QueryBody, spelled: Spelled)

  ghost predicate Fetches(events: seq<Event>, t: State, f: Fetch, request: Request) {
    && f.slot < |t.history| && t.history[f.slot] == request && request.SqlMore? && f.page.id == request.id
    && f.cut <= |events| && Brings(Run(INIT, events[..f.cut]), events[f.cut..], f.slot, f.page, f.at, f.spelled)
  }

  lemma FetchedReply(events: seq<Event>, t: State, f: Fetch, request: Request)
    requires Feasible(INIT, events) && t == Run(INIT, events) && DistinctIds(t.history)
    requires Fetches(events, t, f, request)
    ensures f.slot in t.replies && t.replies[f.slot] == Ok(QueryResult(LiveDialect.HeardPage(f.page)))
  {
    var s := Run(INIT, events[..f.cut]);
    CutAt(events, f.cut);
    CutRun(events, events[..f.cut], events[f.cut..], s, t);
    BroughtPage(s, events[f.cut..], t, f.slot, f.page, f.at, f.spelled);
  }

  /** What the client holds of the fetched pages. */
  function HeardPages(fetches: seq<Fetch>): (heard: seq<QueryBody>)
    ensures |heard| == |fetches|
    ensures forall k :: 0 <= k < |fetches| ==> heard[k] == LiveDialect.HeardPage(fetches[k].page)
  {
    seq(|fetches|, k requires 0 <= k < |fetches| => LiveDialect.HeardPage(fetches[k].page))
  }

  /** The reply of each fetch as it stands in `t`; nothing is asked of one that is not there. */
  predicate AreReplies(replies: seq<Outcome>, fetches: seq<Fetch>, t: State) {
    |replies| == |fetches| && forall k :: 0 <= k < |fetches| && fetches[k].slot in t.replies ==>
      replies[k] == t.replies[fetches[k].slot]
  }

  /** Each `sqlmore` of a result set has been answered by its page. */
  ghost predicate AllFetched(events: seq<Event>, t: State, fetches: seq<Fetch>, prefix: string, handle: string,
                             pageSize: u32)
  {
    forall k :: 0 <= k < |fetches| ==>
      Fetches(events, t, fetches[k], SqlMore(Codec.IssuedId(prefix, k), handle, pageSize))
  }

  lemma {:induction false} RepliesFetched(events: seq<Event>, t: State, fetches: seq<Fetch>, prefix: string,
                                         handle: string, pageSize: u32, replies: seq<Outcome>)
    requires Feasible(INIT, events) && t == Run(INIT, events) && DistinctIds(t.history)
    requires AllFetched(events, t, fetches, prefix, handle, pageSize) && AreReplies(replies, fetches, t)
    ensures replies == Collecting.Replies(HeardPages(fetches))
    ensures Numbered(prefix, HeardPages(fetches), 0)
  {
    var heard := HeardPages(fetches);
    forall k | 0 <= k < |fetches|
      ensures replies[k] == Ok(QueryResult(heard[k])) && heard[k].id == Codec.IssuedId(prefix, 0 + k)
    {
      FetchedReply(events, t, fetches[k], SqlMore(Codec.IssuedId(prefix, k), handle, pageSize));
    }
    AreHeard(replies, heard);
  }

  lemma AreHeard(replies: seq<Outcome>, heard: seq<QueryBody>)
    requires |replies| == |heard| && forall k :: 0 <= k < |heard| ==> replies[k] == Ok(QueryResult(heard[k]))
    ensures replies == Collecting.Replies(heard)
  {
    RepliesAre(heard);
  }

  /**
    A result set read over a connection that carries arbitrary other traffic: if
    each of its `sqlmore` requests is decided by the live page for it, the
    collection of the replies in the state `t` that the run ends in has the rows
    of all pages in order, and it has sent just those requests.
   */
  lemma {:induction false} CollectionOverConnection(events: seq<Event>, t: State, q: QueryBody, pageSize: u32,
                                                   prefix: string, fetches: seq<Fetch>, replies: seq<Outcome>)
    requires Feasible(INIT, events) && t == Run(INIT, events) && DistinctIds(t.history)
    requires Paging.Opens(q) && Collecting.Script(q.isDone, HeardPages(fetches))
    requires AllFetched(events, t, fetches, prefix, q.CursorHandle().value, pageSize) && AreReplies(replies, fetches, t)
    ensures var (result, end) := Collecting.Collect(Collecting.Begin(q, pageSize, prefix), replies, []);
      && result == Collecting.Complete(Collecting.Flat([q] + HeardPages(fetches)))
      && end.sent == Paging.Mores(prefix, q.CursorHandle().value, pageSize, |fetches|)
  {
    RepliesFetched(events, t, fetches, prefix, q.CursorHandle().value, pageSize, replies);
    HeardResultSet(q, pageSize, prefix, HeardPages(fetches));
  }
}
