/** What one caller finally gets, read off the events; and what cancelling some callers changes for the others. */
module DispatchOutcomes {
  import opened Wrappers
  import opened Json
  import opened Protocol
  import opened Correlation
  import opened Counter
  import opened Dispatch
  import opened DispatchInvariant
  import opened DispatchRefinement
  import opened DispatchLaws

  // ---- the deciding event ---------------------------------------------------

  /** Events that end the wait of a request on the wire. */
  predicate Decides(request: Request, ev: Event) {
    match ev
    case Frame(v) => Route(v) == Some(request.id)
    case WriteFailed(_) => true
    case BadFrame(_, _) => true
    case StreamFailed(_, _) => true
    case HandlesDropped => true
    case PeerClosed => true
    case Aborted => true
    case _ => false
  }

  /** The outcome a deciding event brings to a request on the wire. */
  function Verdict(request: Request, ev: Event): Outcome
    requires Decides(request, ev)
  {
    match ev
    case Frame(v) => Answer(KindOf(request), v)
    case BadFrame(detail, first) => if first == request.id then Err(Protocol(MalformedJson(detail))) else CLOSED_OUTCOME
    case StreamFailed(e, first) => if first == request.id then Err(Transport(e)) else CLOSED_OUTCOME
    case _ => CLOSED_OUTCOME
  }

  lemma {:induction false} UndecidedWaits(slot: nat, request: Request, events: seq<Event>)
    requires forall i :: 0 <= i < |events| ==> !Decides(request, events[i]) && events[i] != Cancelled(slot)
    ensures Fate(Waiting, slot, request, events) == Waiting
  {
    if events == [] {
    } else {
      UndecidedWaits(slot, request, events[..|events| - 1]);
    }
  }

  lemma {:induction false} FirstDecisionSettles(slot: nat, request: Request, events: seq<Event>, at: nat)
    requires at < |events| && Decides(request, events[at])
    requires forall i :: 0 <= i < at ==> !Decides(request, events[i]) && events[i] != Cancelled(slot)
    ensures Fate(Waiting, slot, request, events) == Settled(Verdict(request, events[at]))
  {
    var init := events[..|events| - 1];
    if at == |events| - 1 {
      UndecidedWaits(slot, request, init);
    } else {
      assert init[at] == events[at];
      FirstDecisionSettles(slot, request, init, at);
    }
  }

  /**
    From the moment a request is on the wire, its reply is decided by the
    first frame with its id or the first event that ends the loop, and by
    nothing else that happens on the connection.
   */
  lemma ReplyIsFirstDecision(s: State, events: seq<Event>, slot: nat, at: nat)
    requires Inv(s) && Feasible(s, events) && DistinctIds(Run(s, events).history)
    requires IsPending(s, slot) && slot !in s.cancelled
    requires at < |events| && Decides(s.history[slot], events[at])
    requires forall i :: 0 <= i < at ==> !Decides(s.history[slot], events[i]) && events[i] != Cancelled(slot)
    ensures slot in Run(s, events).replies
    ensures Run(s, events).replies[slot] == Verdict(s.history[slot], events[at])
  {
    RunRefinesFate(s, events, slot);
    FirstDecisionSettles(slot, s.history[slot], events, at);
  }

  // ---- while the request is queued ------------------------------------------

  predicate EndsLoop(ev: Event) {
    ev.WriteFailed? || ev.BadFrame? || ev.StreamFailed? || ev.HandlesDropped? || ev.PeerClosed? || ev.Aborted?
  }

  /** The loop goes on, and the caller stays. */
  predicate Calm(events: seq<Event>, slot: nat) {
    forall i :: 0 <= i < |events| ==> !EndsLoop(events[i]) && events[i] != Cancelled(slot)
  }

  function Writes(events: seq<Event>): nat {
    if events == [] then 0
    else Writes(events[..|events| - 1]) + if events[|events| - 1] == Written then 1 else 0
  }

  lemma {:induction false} QueuedWaits(n: nat, slot: nat, request: Request, events: seq<Event>)
    requires Calm(events, slot) && Writes(events) <= n
    ensures Fate(Queued(n), slot, request, events) == Queued(n - Writes(events))
  {
    if events == [] {
    } else {
      QueuedWaits(n, slot, request, events[..|events| - 1]);
    }
  }

  lemma {:induction false} SettledStays(o: Outcome, slot: nat, request: Request, events: seq<Event>)
    ensures Fate(Settled(o), slot, request, events) == Settled(o)
  {
    if events == [] {
    } else {
      SettledStays(o, slot, request, events[..|events| - 1]);
    }
  }

  lemma {:induction false} FateOn(p: Phase, slot: nat, request: Request, events: seq<Event>, at: nat)
    requires at <= |events|
    ensures Fate(p, slot, request, events) == Fate(Fate(p, slot, request, events[..at]), slot, request, events[at..])
  {
    if at == |events| {
      assert events[..at] == events;
    } else {
      var n := |events| - 1;
      FateOn(p, slot, request, events[..n], at);
      assert events[..n][..at] == events[..at] && events[..n][at..] == events[at..][..n - at];
      assert events[at..][|events[at..]| - 1] == events[n];
    }
  }

  /** How the end of the loop settles a queued request: the one being written gets the write error. */
  function QueuedVerdict(ahead: nat, ev: Event): Outcome {
    if ev.WriteFailed? && ahead == 0 then Err(Transport(ev.e)) else CLOSED_OUTCOME
  }

  lemma EndSettlesQueued(n: nat, slot: nat, request: Request, events: seq<Event>, at: nat, left: nat)
    requires at < |events| && EndsLoop(events[at]) && Calm(events[..at], slot) && Writes(events[..at]) + left == n
    ensures Fate(Queued(n), slot, request, events) == Settled(QueuedVerdict(left, events[at]))
  {
    QueuedWaits(n, slot, request, events[..at]);
    FateOn(Queued(n), slot, request, events, at + 1);
    assert events[..at + 1][..at] == events[..at];
    SettledStays(QueuedVerdict(left, events[at]), slot, request, events[at + 1..]);
  }

  lemma QueuedPhase(s: State, slot: nat)
    requires Inv(s) && IsQueued(s, slot) && slot !in s.cancelled
    ensures slot < |s.history| && PhaseOf(s, slot) == Queued(Ahead(s.queue, slot))
  {
  }

  lemma SettledIsReplied(s: State, slot: nat, o: Outcome)
    requires PhaseOf(s, slot) == Settled(o)
    ensures slot in s.replies && s.replies[slot] == o
  {
  }

  /**
    A queued request, when the loop ends while `left` requests are still ahead
    of it: its reply is the write error if the failed write was its own, and
    `Closed` in every other case.
   */
  lemma ReplyWhileQueued(s: State, events: seq<Event>, t: State, slot: nat, at: nat, left: nat)
    requires Inv(s) && Feasible(s, events) && t == Run(s, events) && DistinctIds(t.history)
    requires IsQueued(s, slot) && slot !in s.cancelled
    requires at < |events| && EndsLoop(events[at]) && Calm(events[..at], slot)
    requires Writes(events[..at]) + left == Ahead(s.queue, slot)
    ensures slot in t.replies && t.replies[slot] == QueuedVerdict(left, events[at])
  {
    QueuedPhase(s, slot);
    QueuedFate(s, events, t, slot);
    EndSettlesQueued(Ahead(s.queue, slot), slot, s.history[slot], events, at, left);
    SettledIsReplied(t, slot, QueuedVerdict(left, events[at]));
  }

  lemma QueuedFate(s: State, events: seq<Event>, t: State, slot: nat)
    requires Inv(s) && Feasible(s, events) && t == Run(s, events) && DistinctIds(t.history)
    requires IsQueued(s, slot) && slot !in s.cancelled && slot < |s.history|
    ensures PhaseOf(t, slot) == Fate(Queued(Ahead(s.queue, slot)), slot, s.history[slot], events)
  {
    QueuedPhase(s, slot);
    RunRefinesFate(s, events, slot);
  }

  /** It is on the wire from the write after those ahead of it on; `ReplyIsFirstDecision` then says what it gets. */
  lemma {:induction false} WrittenInTurn(s: State, events: seq<Event>, t: State, slot: nat)
    requires Inv(s) && Feasible(s, events) && t == Run(s, events) && DistinctIds(t.history)
    requires IsQueued(s, slot) && slot !in s.cancelled
    requires Calm(events, slot) && Writes(events) == Ahead(s.queue, slot) + 1
    requires events != [] && events[|events| - 1] == Written
    ensures IsPending(t, slot) && slot !in t.replies
  {
    QueuedPhase(s, slot);
    QueuedFate(s, events, t, slot);
    QueuedWaits(Ahead(s.queue, slot), slot, s.history[slot], events[..|events| - 1]);
  }

  // ---- cancellation ---------------------------------------------------------

  function WithoutCancels(events: seq<Event>): seq<Event> {
    if events == [] then []
    else
      var rest := WithoutCancels(events[..|events| - 1]);
      if events[|events| - 1].Cancelled? then rest else rest + [events[|events| - 1]]
  }

  /** `b` is `a` as it would be had nobody been cancelled. */
  ghost predicate Shadows(a: State, b: State) {
    && b.cancelled == {}
    && b == a.(replies := b.replies, cancelled := {})
    && (forall slot :: slot in a.replies ==> slot in b.replies && b.replies[slot] == a.replies[slot])
    && (forall slot :: slot in b.replies && slot !in a.replies ==> slot in a.cancelled)
  }

  lemma SettleShadows(a: State, b: State, slot: nat, o: Outcome)
    requires Shadows(a, b) && slot !in a.replies
    ensures Shadows(Settle(a, slot, o), Settle(b, slot, o))
  {
  }

  lemma DrainShadows(a: State, b: State, err: CallError, first: string)
    requires Inv(a) && Shadows(a, b)
    ensures Shadows(Drain(a, err, first), Drain(b, err, first))
  {
    var c, d := Drain(a, err, first), Drain(b, err, first);
    forall slot | slot in PendingSlots(a.pending) ensures slot !in a.replies {
      PendingSlotsAre(a, slot);
    }
    forall slot | slot in c.replies ensures slot in d.replies && d.replies[slot] == c.replies[slot] {
    }
    forall slot | slot in d.replies && slot !in c.replies ensures slot in a.cancelled {
    }
  }

  lemma StopShadows(a: State, b: State)
    requires Inv(a) && Shadows(a, b)
    ensures Shadows(Stop(a), Stop(b))
  {
    forall k: nat { PendingSlotsAre(a, k); }
  }

  lemma ShutdownShadows(a: State, b: State, err: CallError, first: string)
    requires Inv(a) && Shadows(a, b)
    ensures Shadows(Stop(Drain(a, err, first)), Stop(Drain(b, err, first)))
  {
    DrainShadows(a, b, err, first);
    DrainKeepsInv(a, err, first);
    StopShadows(Drain(a, err, first), Drain(b, err, first));
  }

  lemma FailWriteShadows(a: State, b: State, e: TransportError)
    requires Inv(a) && Shadows(a, b) && a.queue != []
    ensures Shadows(FailWrite(a, e), FailWrite(b, e))
  {
    FailHeadKeepsInv(a, e);
    assert a.queue[0].slot !in a.spent;
    SettleShadows(a.(queue := a.queue[1..]), b.(queue := b.queue[1..]), a.queue[0].slot, Err(Transport(e)));
    ShutdownShadows(FailHead(a, e), FailHead(b, e), Transport(Closed), "");
  }

  lemma WriteShadows(a: State, b: State)
    requires Inv(a) && Shadows(a, b) && a.queue != []
    ensures Shadows(Write(a), Write(b))
  {
    WriteFacts(a);
  }

  lemma ReceiveShadows(a: State, b: State, v: Arrival)
    requires Inv(a) && Shadows(a, b)
    ensures Shadows(Receive(a, v), Receive(b, v))
  {
    if Route(v).Some? && Route(v).value in a.pending {
      assert IsPending(a, a.pending[Route(v).value].slot);
    }
  }

  lemma SubmitShadows(a: State, b: State, request: Request)
    requires Inv(a) && Shadows(a, b)
    ensures Shadows(Submit(a, request), Submit(b, request))
  {
  }

  lemma StepShadows(a: State, b: State, ev: Event)
    requires Inv(a) && Shadows(a, b)
    ensures Shadows(Step(a, ev), if ev.Cancelled? then b else Step(b, ev))
  {
    if Enabled(a, ev) {
      match ev
      case Submitted(request) => SubmitShadows(a, b, request);
      case Written => WriteShadows(a, b);
      case WriteFailed(e) => FailWriteShadows(a, b, e);
      case Frame(v) => ReceiveShadows(a, b, v);
      case BadFrame(detail, first) => ShutdownShadows(a, b, Protocol(MalformedJson(detail)), first);
      case StreamFailed(e, first) => ShutdownShadows(a, b, Transport(e), first);
      case PeerClosed => ShutdownShadows(a, b, Transport(Closed), "");
      case HandlesDropped => StopShadows(a, b);
      case Aborted => StopShadows(a, b);
      case _ =>
    }
  }

  lemma {:induction false} RunShadows(events: seq<Event>)
    ensures Shadows(Run(INIT, events), Run(INIT, WithoutCancels(events)))
  {
    if events == [] {
    } else {
      var init, last := events[..|events| - 1], events[|events| - 1];
      RunShadows(init);
      RunKeepsInv(INIT, init);
      StepShadows(Run(INIT, init), Run(INIT, WithoutCancels(init)), last);
      if !last.Cancelled? {
        assert (WithoutCancels(init) + [last])[..|WithoutCancels(init)|] == WithoutCancels(init);
      }
    }
  }

  /**
    Two runs that differ only in which callers were cancelled, and when, reach
    the same queue, pending requests and counter, and answer every caller that
    neither cancelled alike.
   */
  lemma CancellationDoesNotInterfere(one: seq<Event>, two: seq<Event>)
    requires WithoutCancels(one) == WithoutCancels(two)
    ensures var a, b := Run(INIT, one), Run(INIT, two);
      && a.history == b.history && a.queue == b.queue && a.pending == b.pending
      && a.inFlight == b.inFlight && a.running == b.running && a.spent == b.spent
      && (forall slot :: slot !in a.cancelled && slot !in b.cancelled ==>
            (slot in a.replies <==> slot in b.replies)
            && (slot in a.replies ==> a.replies[slot] == b.replies[slot]))
  {
    RunShadows(one);
    RunShadows(two);
  }
}
