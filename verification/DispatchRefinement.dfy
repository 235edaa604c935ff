/**
  Seen by one request, the dispatcher is a small automaton that depends on the
  other requests only through how many of them are ahead in the queue.
 */
module DispatchRefinement {
  import opened Wrappers
  import opened Json
  import opened Protocol
  import opened Correlation
  import opened Dispatch
  import opened DispatchInvariant

  datatype Phase =
    | Queued(ahead: nat)
    | Waiting
    | Settled(outcome: Outcome)
    | Gone

  /** How one request, known by its slot and its content, moves on an event. */
  function Advance(p: Phase, slot: nat, request: Request, ev: Event): Phase {
    if p.Settled? || p.Gone? then p
    else
      match ev
      case Written => if p.Waiting? then Waiting else if p.ahead == 0 then Waiting else Queued(p.ahead - 1)
      case WriteFailed(e) => Settled(if p == Queued(0) then Err(Transport(e)) else CLOSED_OUTCOME)
      case Frame(v) => if p.Waiting? && Route(v) == Some(request.id) then Settled(Answer(KindOf(request), v)) else p
      case BadFrame(detail, first) =>
        Settled(if p.Waiting? && first == request.id then Err(Protocol(MalformedJson(detail))) else CLOSED_OUTCOME)
      case StreamFailed(e, first) =>
        Settled(if p.Waiting? && first == request.id then Err(Transport(e)) else CLOSED_OUTCOME)
      case HandlesDropped => Settled(CLOSED_OUTCOME)
      case PeerClosed => Settled(CLOSED_OUTCOME)
      case Aborted => Settled(CLOSED_OUTCOME)
      case Cancelled(c) => if c == slot then Gone else p
      case _ => p
  }

  function Fate(p: Phase, slot: nat, request: Request, events: seq<Event>): Phase {
    if events == [] then p
    else Advance(Fate(p, slot, request, events[..|events| - 1]), slot, request, events[|events| - 1])
  }

  /** Position of `slot` in the queue, or the length of the queue. */
  function Ahead(queue: seq<Outbound>, slot: nat): (n: nat)
    ensures n <= |queue|
    ensures n < |queue| ==> queue[n].slot == slot
    ensures forall i :: 0 <= i < n ==> queue[i].slot != slot
  {
    if queue == [] || queue[0].slot == slot then 0 else 1 + Ahead(queue[1..], slot)
  }

  ghost function PhaseOf(s: State, slot: nat): Phase {
    if slot in s.replies then Settled(s.replies[slot])
    else if slot in s.cancelled then Gone
    else if IsPending(s, slot) then Waiting
    else Queued(Ahead(s.queue, slot))
  }

  predicate DistinctIds(history: seq<Request>) {
    forall i, j :: 0 <= i < j < |history| ==> history[i].id != history[j].id
  }

  lemma AheadUnique(queue: seq<Outbound>, slot: nat, n: nat)
    requires n < |queue| && queue[n].slot == slot
    requires forall i, j :: 0 <= i < j < |queue| ==> queue[i].slot < queue[j].slot
    ensures Ahead(queue, slot) == n
  {
  }

  /** With distinct ids a write never displaces a pending request. */
  lemma WriteIsFresh(s: State)
    requires Inv(s) && DistinctIds(s.history) && s.queue != []
    ensures s.queue[0].id !in s.pending
  {
    var o := s.queue[0];
    assert IsQueued(s, o.slot);
    if o.id in s.pending {
      var p := s.pending[o.id].slot;
      assert s.history[p].id == s.history[o.slot].id;
      assert p == o.slot;
      assert IsPending(s, o.slot);
    }
  }

  lemma WriteAdvances(s: State, slot: nat)
    requires Inv(s) && DistinctIds(s.history) && s.queue != [] && s.running && slot < |s.history|
    ensures PhaseOf(Write(s), slot) == Advance(PhaseOf(s, slot), slot, s.history[slot], Written)
  {
    WriteIsFresh(s);
    WriteFacts(s);
    var t, o := Write(s), s.queue[0];
    if PhaseOf(s, slot).Queued? {
      assert IsQueued(s, slot);
      if slot != o.slot {
        assert IsQueued(t, slot);
        assert !IsPending(t, slot);
      } else {
        assert Ahead(s.queue, slot) == 0;
      }
    } else if PhaseOf(s, slot).Waiting? {
      assert s.history[slot].id != o.id;
    }
  }

  /** Draining and stopping settles every request that is still queued or waiting. */
  lemma StopSettles(s: State, slot: nat)
    requires Inv(s) && slot < |s.history|
    ensures PhaseOf(Stop(s), slot) ==
      if PhaseOf(s, slot).Queued? || PhaseOf(s, slot).Waiting? then Settled(CLOSED_OUTCOME) else PhaseOf(s, slot)
  {
    PendingSlotsAre(s, slot);
  }

  lemma DrainSettles(s: State, err: CallError, first: string, slot: nat)
    requires Inv(s) && slot < |s.history|
    ensures PhaseOf(Drain(s, err, first), slot) ==
      if PhaseOf(s, slot).Waiting? then Settled(if first == s.history[slot].id then Err(err) else CLOSED_OUTCOME)
      else PhaseOf(s, slot)
  {
    PendingSlotsAre(s, slot);
  }

  lemma ShutdownAdvances(s: State, err: CallError, first: string, slot: nat)
    requires Inv(s) && slot < |s.history|
    ensures PhaseOf(Stop(Drain(s, err, first)), slot) ==
      match PhaseOf(s, slot)
      case Queued(_) => Settled(CLOSED_OUTCOME)
      case Waiting => Settled(if first == s.history[slot].id then Err(err) else CLOSED_OUTCOME)
      case p => p
  {
    DrainKeepsInv(s, err, first);
    DrainSettles(s, err, first, slot);
    StopSettles(Drain(s, err, first), slot);
  }

  lemma FailHeadSettles(s: State, e: TransportError, slot: nat)
    requires Inv(s) && s.queue != [] && slot < |s.history|
    ensures PhaseOf(FailHead(s, e), slot) ==
      match PhaseOf(s, slot)
      case Queued(n) => if n == 0 then Settled(Err(Transport(e))) else Queued(n - 1)
      case p => p
  {
    FailHeadKeepsInv(s, e);
    if PhaseOf(s, slot).Queued? {
      assert IsQueued(s, slot);
    }
  }

  lemma FailWriteAdvances(s: State, e: TransportError, slot: nat)
    requires Inv(s) && s.queue != [] && slot < |s.history|
    ensures PhaseOf(FailWrite(s, e), slot) == Advance(PhaseOf(s, slot), slot, s.history[slot], WriteFailed(e))
  {
    var t := FailHead(s, e);
    FailHeadKeepsInv(s, e);
    FailHeadSettles(s, e, slot);
    ShutdownAdvances(t, Transport(Closed), "", slot);
  }

  lemma ReceiveAdvances(s: State, v: Arrival, slot: nat)
    requires Inv(s) && slot < |s.history|
    ensures PhaseOf(Receive(s, v), slot) == Advance(PhaseOf(s, slot), slot, s.history[slot], Frame(v))
  {
    match Route(v)
    case None =>
    case Some(id) =>
      if id in s.pending {
        assert IsPending(s, s.pending[id].slot);
        assert Receive(s, v).queue == s.queue;
      }
  }

  lemma SubmitAdvances(s: State, request: Request, slot: nat)
    requires Inv(s) && slot < |s.history|
    ensures PhaseOf(Submit(s, request), slot) == PhaseOf(s, slot)
  {
    var t := Submit(s, request);
    assert t.history[slot] == s.history[slot];
    if PhaseOf(s, slot).Queued? && s.running {
      assert IsQueued(s, slot);
      SubmitKeepsInv(s, request);
      assert t.queue[Ahead(s.queue, slot)].slot == slot;
      AheadUnique(t.queue, slot, Ahead(s.queue, slot));
    }
  }

  lemma StepKeepsHistory(s: State, ev: Event)
    ensures |s.history| <= |Step(s, ev).history|
    ensures s.history == Step(s, ev).history[..|s.history|]
  {
  }

  lemma FatalStepAdvances(s: State, ev: Event, slot: nat)
    requires Inv(s) && Enabled(s, ev) && slot < |s.history|
    requires ev.HandlesDropped? || ev.BadFrame? || ev.StreamFailed? || ev.PeerClosed? || ev.Aborted?
    ensures PhaseOf(Step(s, ev), slot) == Advance(PhaseOf(s, slot), slot, s.history[slot], ev)
  {
    match ev
    case BadFrame(detail, first) => ShutdownAdvances(s, Protocol(MalformedJson(detail)), first, slot);
    case StreamFailed(e, first) => ShutdownAdvances(s, Transport(e), first, slot);
    case PeerClosed => ShutdownAdvances(s, Transport(Closed), "", slot);
    case HandlesDropped => StopSettles(s, slot);
    case Aborted => StopSettles(s, slot);
  }

  lemma StepAdvances(s: State, ev: Event, slot: nat)
    requires Inv(s) && DistinctIds(s.history) && Enabled(s, ev) && slot < |s.history|
    ensures PhaseOf(Step(s, ev), slot) == Advance(PhaseOf(s, slot), slot, s.history[slot], ev)
  {
    match ev
    case Submitted(request) => SubmitAdvances(s, request, slot);
    case Written => WriteAdvances(s, slot);
    case WriteFailed(e) => FailWriteAdvances(s, e, slot);
    case Frame(v) => ReceiveAdvances(s, v, slot);
    case Cancelled(_) =>
    case ReservationStarted =>
    case ReservationEnded =>
    case _ => FatalStepAdvances(s, ev, slot);
  }

  /** Histories only grow. */
  lemma {:induction false} HistoryGrows(s: State, events: seq<Event>)
    ensures |s.history| <= |Run(s, events).history|
    ensures s.history == Run(s, events).history[..|s.history|]
  {
    if events == [] {
    } else {
      HistoryGrows(s, events[..|events| - 1]);
      StepKeepsHistory(Run(s, events[..|events| - 1]), events[|events| - 1]);
    }
  }

  /**
    The outcome of every request in every run with distinct ids is the fate
    the automaton computes from the events alone.
   */
  lemma {:induction false} RunRefinesFate(s: State, events: seq<Event>, slot: nat)
    requires Inv(s) && Feasible(s, events) && slot < |s.history|
    requires DistinctIds(Run(s, events).history)
    ensures slot < |Run(s, events).history|
    ensures PhaseOf(Run(s, events), slot) == Fate(PhaseOf(s, slot), slot, s.history[slot], events)
  {
    HistoryGrows(s, events);
    if events == [] {
    } else {
      var init, last := events[..|events| - 1], events[|events| - 1];
      var u := Run(s, init);
      RunKeepsInv(s, init);
      HistoryGrows(s, init);
      StepKeepsHistory(u, last);
      assert DistinctIds(u.history);
      RunRefinesFate(s, init, slot);
      assert u.history[slot] == s.history[slot];
      StepAdvances(u, last, slot);
    }
  }
}
