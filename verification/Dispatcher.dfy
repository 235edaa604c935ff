/** The dispatcher task itself: an event loop over a map of pending requests and a shared counter. */
module Dispatcher {
  import opened Wrappers
  import opened Json
  import opened Protocol
  import opened Decode
  import opened Correlation
  import opened Counter
  import opened Dispatch
  import opened DispatchInvariant
  import DispatchLaws

  /** What the loop and its callers react to. */
  datatype Stimulus =
    | Call(request: Request)
    | QueueReady(write: Result<(), TransportError>)
    | AllHandlesGone
    | Bytes(parsed: Result<Json, string>)
    | StreamError(e: TransportError)
    | EndOfStream
    | Abort
    | CallerGone(slot: nat)
    | CounterPinned
    | CounterCleared

  class Task {
    var history: seq<Request>
    var queue: seq<Outbound>
    var pending: map<string, Pending>
    var inFlight: u32
    var running: bool
    var replies: map<nat, Outcome>
    var spent: set<nat>
    var cancelled: set<nat>

    ghost function View(): State
      reads this
    {
      State(history, queue, pending, inFlight, running, replies, spent, cancelled)
    }

    constructor ()
      ensures View() == INIT
      ensures Inv(View())
    {
      history, queue, pending, inFlight, running := [], [], map[], 0, true;
      replies, spent, cancelled := map[], {}, {};
    }

    method Increment()
      modifies this`inFlight
      ensures inFlight == Up(old(inFlight))
    {
      inFlight := if inFlight == SENTINEL then 0 else inFlight + 1;
    }

    method Decrement()
      modifies this`inFlight
      ensures inFlight == Down(old(inFlight))
    {
      inFlight := if inFlight == 0 then SENTINEL else inFlight - 1;
    }

    /** Sends on a reply channel; nothing arrives when the caller has dropped its end. */
    method Reply(slot: nat, o: Outcome)
      modifies this`spent, this`replies
      ensures View() == Settle(old(View()), slot, o)
    {
      spent := spent + {slot};
      if slot !in cancelled {
        replies := replies[slot := o];
      }
    }

    /** A caller enqueues a request, or learns that the loop is gone. */
    method Send(request: Request)
      modifies this
      ensures View() == Step(old(View()), Submitted(request))
    {
      var slot := |history|;
      history := history + [request];
      if running {
        queue := queue + [Outbound(slot, request.id, KindOf(request))];
      } else {
        Reply(slot, CLOSED_OUTCOME);
      }
    }

    /** One entry taken out of the map being drained. */
    method AnswerPending(id: string, answer: CallError)
      requires id in pending
      modifies this`pending, this`inFlight, this`spent, this`replies
      ensures pending == old(pending) - {id}
      ensures inFlight == Down(old(inFlight))
      ensures spent == old(spent) + {old(pending)[id].slot}
      ensures replies == if old(pending)[id].slot in cancelled then old(replies)
                         else old(replies)[old(pending)[id].slot := Err(answer)]
    {
      Decrement();
      Reply(pending[id].slot, Err(answer));
      pending := pending - {id};
    }

    method DrainEntry(ghost s: State, ghost err: CallError, ghost first: string, id: string, answer: CallError)
      requires PendingOk(s) && first in s.pending && Left(s, pending) && id in pending && cancelled == s.cancelled
      requires answer == if first == id then err else Transport(Closed)
      requires Drained(s, err, first, pending, inFlight, spent, replies)
      modifies this`pending, this`inFlight, this`spent, this`replies
      ensures pending == old(pending) - {id} && |pending| == |old(pending)| - 1
      ensures Drained(s, err, first, pending, inFlight, spent, replies)
    {
      TakeEntry(pending, id);
      TakeOne(s, err, first, pending, id, answer, inFlight, spent, replies);
      AnswerPending(id, answer);
    }

    method DrainFirst(ghost s: State, err: CallError) returns (ghost first: string)
      requires PendingOk(s) && View() == s && pending != map[]
      modifies this`pending, this`inFlight, this`spent, this`replies
      ensures first in s.pending && first !in pending && Left(s, pending)
      ensures Drained(s, err, first, pending, inFlight, spent, replies)
    {
      var head :| head in pending;
      first := head;
      NothingDrained(s, err, first);
      DrainEntry(s, err, first, head, err);
    }

    /** The entries a drain yields after the first: each gets `Closed`. */
    method DrainRest(ghost s: State, ghost err: CallError, ghost first: string)
      requires PendingOk(s) && first in s.pending && cancelled == s.cancelled
      requires Left(s, pending) && first !in pending
      requires Drained(s, err, first, pending, inFlight, spent, replies)
      modifies this`pending, this`inFlight, this`spent, this`replies
      ensures pending == map[]
      ensures Drained(s, err, first, pending, inFlight, spent, replies)
    {
      while pending != map[]
        invariant Left(s, pending) && first !in pending
        invariant Drained(s, err, first, pending, inFlight, spent, replies)
        decreases |pending|
      {
        var id :| id in pending;
        DrainEntry(s, err, first, id, Transport(Closed));
      }
    }

    /**
      Answers every pending request: the first entry the map yields with `err`,
      the others with `Closed`.
     */
    method DrainPending(err: CallError) returns (ghost first: string)
      requires PendingOk(View())
      modifies this`pending, this`inFlight, this`spent, this`replies
      ensures old(pending) != map[] ==> first in old(pending)
      ensures View() == Drain(old(View()), err, first)
    {
      ghost var s := View();
      first := "";
      if pending != map[] {
        first := DrainFirst(s, err);
        DrainRest(s, err, first);
        AllDrained(s, err, first, View());
      } else {
        NothingToDrain(s, err, first);
      }
    }

    /** The loop ends: the reply channels left in the queue and in the map are dropped. */
    method Return()
      modifies this
      ensures View() == Stop(old(View()))
    {
      var dropped := PendingSlots(pending) + QueueSlots(queue);
      queue, pending, running := [], map[], false;
      spent := spent + dropped;
      replies := replies + map slot | slot in dropped - cancelled :: CLOSED_OUTCOME;
    }

    method Sent()
      requires queue != []
      modifies this
      ensures View() == Write(old(View()))
    {
      var o := queue[0];
      queue := queue[1..];
      Increment();
      if o.id in pending {
        Reply(pending[o.id].slot, CLOSED_OUTCOME);
      }
      pending := pending[o.id := Pending(o.slot, o.kind)];
    }

    method RejectHead(e: TransportError)
      requires queue != []
      modifies this
      ensures View() == FailHead(old(View()), e)
    {
      var o := queue[0];
      queue := queue[1..];
      Reply(o.slot, Err(Transport(e)));
    }

    method SendFailed(e: TransportError)
      requires Inv(View()) && queue != []
      modifies this
      ensures View() == FailWrite(old(View()), e)
    {
      ghost var s := View();
      RejectHead(e);
      FailHeadKeepsInv(s, e);
      ghost var first := Shutdown(Transport(Closed));
      ClosedDrainsAlike(FailHead(s, e), first);
    }

    method OnFrame(v: Json)
      modifies this
      ensures View() == Receive(old(View()), Arrive(v))
    {
      match DecodeValue(v)
      case Ok(response) =>
        var id := ResponseId(response);
        if id in pending {
          var slot := pending[id];
          pending := pending - {id};
          Decrement();
          Reply(slot.slot, Ok(Remap(slot.kind, response)));
        }
      case Err(e) =>
        if HasId(v) && IdOf(v) in pending {
          var slot := pending[IdOf(v)];
          pending := pending - {IdOf(v)};
          Decrement();
          Reply(slot.slot, Err(DecodeFailure(e)));
        }
    }

    /** Drain with an error, then return. */
    method Shutdown(err: CallError) returns (ghost first: string)
      requires Inv(View())
      modifies this
      ensures old(pending) != map[] ==> first in old(pending)
      ensures View() == Stop(Drain(old(View()), err, first))
    {
      first := DrainPending(err);
      Return();
    }

    /** The branch of the loop that takes requests from the queue. */
    method PollQueue(write: Result<(), TransportError>)
      requires Inv(View())
      modifies this
      ensures View() == Step(old(View()), if write.Ok? then Written else WriteFailed(write.error))
    {
      ghost var s := View();
      match write
      case Ok(_) =>
        WrittenSteps(s);
        if running && queue != [] {
          Sent();
        }
      case Err(e) =>
        FailedSteps(s, e);
        if running && queue != [] {
          SendFailed(e);
        }
    }

    /** The branch of the loop that takes frames from the daemon. */
    method PollFrame(parsed: Result<Json, string>) returns (ghost first: string)
      requires Inv(View())
      modifies this
      ensures View() == Step(old(View()),
        if parsed.Ok? then Frame(Arrive(parsed.value)) else BadFrame(parsed.error, first))
    {
      ghost var s := View();
      first := "";
      match parsed
      case Ok(v) =>
        if running {
          OnFrame(v);
        }
        FrameSteps(s, Arrive(v));
      case Err(detail) =>
        if running {
          first := Shutdown(Protocol(MalformedJson(detail)));
        }
        BadFrameSteps(s, detail, first);
    }

    method PollError(e: TransportError) returns (ghost first: string)
      requires Inv(View())
      modifies this
      ensures View() == Step(old(View()), StreamFailed(e, first))
    {
      ghost var s := View();
      first := "";
      if running {
        first := Shutdown(Transport(e));
      }
      ErrorSteps(s, e, first);
    }

    /** The stream of frames ends. */
    method PollEnd()
      requires Inv(View())
      modifies this
      ensures View() == Step(old(View()), PeerClosed)
    {
      ghost var s := View();
      if running {
        ghost var first := Shutdown(Transport(Closed));
        ClosedDrainsAlike(s, first);
      }
      EndSteps(s);
    }

    /** Nobody can send any more, or the loop is aborted. */
    method PollExit(aborted: bool)
      modifies this
      ensures View() == Step(old(View()), if aborted then Aborted else HandlesDropped)
    {
      ghost var s := View();
      if running && (aborted || queue == []) {
        Return();
      }
      ExitSteps(s, aborted);
    }

    method CallerLeaves(slot: nat)
      modifies this`cancelled
      ensures View() == Step(old(View()), Cancelled(slot))
    {
      if slot < |history| && slot !in spent && slot !in cancelled {
        cancelled := cancelled + {slot};
      }
    }

    /** The pool stores to the shared counter. */
    method StoreCounter(pin: bool)
      modifies this`inFlight
      ensures View() == Step(old(View()), if pin then ReservationStarted else ReservationEnded)
    {
      inFlight := if pin then SENTINEL else 0;
    }

    /** One turn of the loop, or one thing a caller does. */
    method React(st: Stimulus) returns (ghost first: string)
      requires Inv(View())
      modifies this
      ensures View() == Step(old(View()), EventOf(st, first))
      ensures Inv(View())
    {
      first := "";
      StepPreserves(View());
      match st
      case Call(request) => Send(request);
      case CallerGone(slot) => CallerLeaves(slot);
      case CounterPinned => StoreCounter(true);
      case CounterCleared => StoreCounter(false);
      case QueueReady(write) => PollQueue(write);
      case Bytes(parsed) => first := PollFrame(parsed);
      case StreamError(e) => first := PollError(e);
      case EndOfStream => PollEnd();
      case AllHandlesGone => PollExit(false);
      case Abort => PollExit(true);
    }

    /** The connection's life: every run of the loop is a run of the state machine. */
    method Live(stimuli: seq<Stimulus>) returns (ghost events: seq<Event>)
      requires Inv(View())
      modifies this
      ensures |events| == |stimuli|
      ensures forall i :: 0 <= i < |stimuli| ==> Explains(stimuli[i], events[i])
      ensures View() == Run(old(View()), events)
      ensures Inv(View())
    {
      ghost var s := View();
      events := [];
      for i := 0 to |stimuli|
        invariant |events| == i
        invariant forall j :: 0 <= j < i ==> Explains(stimuli[j], events[j])
        invariant View() == Run(s, events)
        invariant Inv(View())
      {
        ghost var first := React(stimuli[i]);
        RunOneMore(s, events, EventOf(stimuli[i], first));
        events := events + [EventOf(stimuli[i], first)];
      }
    }
  }

  lemma RunOneMore(s: State, events: seq<Event>, ev: Event)
    ensures Run(s, events + [ev]) == Step(Run(s, events), ev)
  {
    assert (events + [ev])[..|events|] == events;
  }

  // ---- single steps ---------------------------------------------------------

  lemma WrittenSteps(s: State)
    ensures Step(s, Written) == if s.running && s.queue != [] then Write(s) else s
  {
  }

  lemma FailedSteps(s: State, e: TransportError)
    ensures Step(s, WriteFailed(e)) == if s.running && s.queue != [] then FailWrite(s, e) else s
  {
  }

  lemma FrameSteps(s: State, a: Arrival)
    ensures Step(s, Frame(a)) == if s.running then Receive(s, a) else s
  {
  }

  lemma BadFrameSteps(s: State, detail: string, first: string)
    requires s.running && s.pending != map[] ==> first in s.pending
    ensures Step(s, BadFrame(detail, first)) ==
      if s.running then Stop(Drain(s, Protocol(MalformedJson(detail)), first)) else s
  {
  }

  lemma ErrorSteps(s: State, e: TransportError, first: string)
    requires s.running && s.pending != map[] ==> first in s.pending
    ensures Step(s, StreamFailed(e, first)) == if s.running then Stop(Drain(s, Transport(e), first)) else s
  {
  }

  lemma EndSteps(s: State)
    ensures Step(s, PeerClosed) == if s.running then Stop(Drain(s, Transport(Closed), "")) else s
  {
  }

  lemma ExitSteps(s: State, aborted: bool)
    ensures Step(s, if aborted then Aborted else HandlesDropped) ==
      if s.running && (aborted || s.queue == []) then Stop(s) else s
  {
  }

  /** What happens on a stimulus; `first` is read off the drain it may cause. */
  function EventOf(st: Stimulus, first: string): Event {
    match st
    case Call(request) => Submitted(request)
    case QueueReady(write) => if write.Ok? then Written else WriteFailed(write.error)
    case AllHandlesGone => HandlesDropped
    case Bytes(parsed) => if parsed.Ok? then Frame(Arrive(parsed.value)) else BadFrame(parsed.error, first)
    case StreamError(e) => StreamFailed(e, first)
    case EndOfStream => PeerClosed
    case Abort => Aborted
    case CallerGone(slot) => Cancelled(slot)
    case CounterPinned => ReservationStarted
    case CounterCleared => ReservationEnded
  }

  ghost predicate Explains(st: Stimulus, ev: Event) {
    exists first :: ev == EventOf(st, first)
  }

  /** When every drained caller gets `Closed` the order of the drain does not show. */
  lemma ClosedDrainsAlike(s: State, first: string)
    ensures Drain(s, Transport(Closed), first) == Drain(s, Transport(Closed), "")
  {
  }

  lemma StepPreserves(s: State)
    requires Inv(s)
    ensures forall ev :: Inv(Step(s, ev))
  {
    forall ev ensures Inv(Step(s, ev)) {
      StepKeepsInv(s, ev);
    }
  }

  // ---- stuttering -----------------------------------------------------------

  /** The events that could happen when they were due. */
  function Happened(s: State, events: seq<Event>): seq<Event> {
    if events == [] then []
    else
      var init, last := events[..|events| - 1], events[|events| - 1];
      if Enabled(Run(s, init), last) then Happened(s, init) + [last] else Happened(s, init)
  }

  /** A run with events that could not happen is the feasible run of those that did. */
  lemma {:induction false} StutterFree(s: State, events: seq<Event>)
    ensures Feasible(s, Happened(s, events))
    ensures Run(s, Happened(s, events)) == Run(s, events)
  {
    if events == [] {
    } else {
      var init, last := events[..|events| - 1], events[|events| - 1];
      StutterFree(s, init);
      assert (Happened(s, init) + [last])[..|Happened(s, init)|] == Happened(s, init);
    }
  }

  // ---- the drain loop -------------------------------------------------------

  lemma SlotsTellIdsApart(s: State, a: string, b: string)
    requires PendingOk(s) && a in s.pending && b in s.pending
    ensures a == b <==> s.pending[a].slot == s.pending[b].slot
  {
    assert s.history[s.pending[a].slot].id == a && s.history[s.pending[b].slot].id == b;
  }

  lemma AnswerOne(s: State, err: CallError, first: string, slots: set<nat>, slot: nat, answer: CallError)
    requires first in s.pending
    requires answer == if s.pending[first].slot == slot then err else Transport(Closed)
    ensures s.replies + DrainReplies(s, err, first, slots + {slot}) ==
      if slot in s.cancelled then s.replies + DrainReplies(s, err, first, slots)
      else (s.replies + DrainReplies(s, err, first, slots))[slot := Err(answer)]
  {
  }

  /** A drain of `s` has answered `done` and leaves `left` entries. */
  ghost predicate AnsweredSoFar(s: State, err: CallError, first: string, left: nat, done: set<nat>,
                           inFlight: u32, spent: set<nat>, replies: map<nat, Outcome>) {
    && left <= |s.pending| && inFlight == DownBy(s.inFlight, |s.pending| - left)
    && spent == s.spent + done && replies == s.replies + DrainReplies(s, err, first, done)
  }

  /** How far a drain of `s` has come when `rest` is still in the map. */
  ghost predicate Drained(s: State, err: CallError, first: string, rest: map<string, Pending>,
                          inFlight: u32, spent: set<nat>, replies: map<nat, Outcome>) {
    AnsweredSoFar(s, err, first, |rest|, PendingSlots(s.pending) - PendingSlots(rest), inFlight, spent, replies)
  }

  lemma TakeSlot(s: State, rest: map<string, Pending>, id: string)
    requires PendingOk(s) && Left(s, rest) && id in rest
    ensures PendingSlots(s.pending) - PendingSlots(rest - {id}) ==
      PendingSlots(s.pending) - PendingSlots(rest) + {rest[id].slot}
  {
    RemoveSlot(s, rest, id);
  }

  lemma TakeEntry(rest: map<string, Pending>, id: string)
    requires id in rest
    ensures |rest - {id}| == |rest| - 1
  {
    assert rest == (rest - {id})[id := rest[id]];
  }

  lemma AnswerOneMore(s: State, err: CallError, first: string, left: nat, done: set<nat>, slot: nat, answer: CallError,
                      inFlight: u32, spent: set<nat>, replies: map<nat, Outcome>)
    requires AnsweredSoFar(s, err, first, left, done, inFlight, spent, replies) && left > 0
    requires first in s.pending && answer == if s.pending[first].slot == slot then err else Transport(Closed)
    ensures AnsweredSoFar(s, err, first, left - 1, done + {slot}, Down(inFlight), spent + {slot},
      if slot in s.cancelled then replies else replies[slot := Err(answer)])
  {
    AnswerOne(s, err, first, done, slot, answer);
  }

  /** Draining one more entry is one decrement and one reply. */
  lemma TakeOne(s: State, err: CallError, first: string, rest: map<string, Pending>, id: string, answer: CallError,
                inFlight: u32, spent: set<nat>, replies: map<nat, Outcome>)
    requires PendingOk(s) && Left(s, rest) && id in rest && first in s.pending
    requires answer == if first == id then err else Transport(Closed)
    requires Drained(s, err, first, rest, inFlight, spent, replies)
    ensures Drained(s, err, first, rest - {id}, Down(inFlight), spent + {rest[id].slot},
      if rest[id].slot in s.cancelled then replies else replies[rest[id].slot := Err(answer)])
  {
    SlotsTellIdsApart(s, first, id);
    TakeEntry(rest, id);
    AnswerOneMore(s, err, first, |rest|, PendingSlots(s.pending) - PendingSlots(rest), rest[id].slot, answer,
      inFlight, spent, replies);
    TakeSlot(s, rest, id);
  }

  lemma NothingAnswered(s: State, err: CallError, first: string)
    ensures s.replies + DrainReplies(s, err, first, {}) == s.replies
  {
    assert DrainReplies(s, err, first, {}) == map[];
  }

  lemma NothingDrained(s: State, err: CallError, first: string)
    ensures Drained(s, err, first, s.pending, s.inFlight, s.spent, s.replies)
  {
    NothingAnswered(s, err, first);
    assert PendingSlots(s.pending) - PendingSlots(s.pending) == {};
  }

  lemma AllDrained(s: State, err: CallError, first: string, t: State)
    requires Drained(s, err, first, map[], t.inFlight, t.spent, t.replies)
    requires t.history == s.history && t.queue == s.queue && t.pending == map[]
    requires t.running == s.running && t.cancelled == s.cancelled
    ensures t == Drain(s, err, first)
  {
    assert PendingSlots(s.pending) - PendingSlots(map[]) == PendingSlots(s.pending);
  }

  lemma NothingToDrain(s: State, err: CallError, first: string)
    requires s.pending == map[]
    ensures Drain(s, err, first) == s
  {
    NothingAnswered(s, err, first);
    assert PendingSlots(s.pending) == {};
  }
}
