/** The per-connection dispatcher as a state machine over the events it can observe. */
module Dispatch {
  import opened Wrappers
  import opened Json
  import opened Protocol
  import opened Correlation
  import opened Counter

  datatype Outbound = Outbound(slot: nat, id: string, kind: PendingKind)

  datatype Pending = Pending(slot: nat, kind: PendingKind)

  /**
    `first` is the entry that the map of pending requests happens to yield
    first when it is drained; the map's order is not specified.
   */
  datatype Event =
    | Submitted(request: Request)
    | Written
    | WriteFailed(e: TransportError)
    | HandlesDropped
    | Frame(a: Arrival)
    | BadFrame(detail: string, first: string)
    | StreamFailed(e: TransportError, first: string)
    | PeerClosed
    | Aborted
    | Cancelled(slot: nat)
    | ReservationStarted
    | ReservationEnded

  /**
    A request is known by its slot, the position of its submission in
    `history`. `spent` holds the slots whose reply channel was used or
    dropped; `replies` is what the callers received, which a cancelled caller
    never does.
   */
  datatype State = State(
    history: seq<Request>,
    queue: seq<Outbound>,
    pending: map<string, Pending>,
    inFlight: u32,
    running: bool,
    replies: map<nat, Outcome>,
    spent: set<nat>,
    cancelled: set<nat>)

  const INIT := State([], [], map[], 0, true, map[], {}, {})

  predicate Enabled(s: State, ev: Event) {
    match ev
    case Submitted(_) => true
    case Written => s.running && s.queue != []
    case WriteFailed(_) => s.running && s.queue != []
    case HandlesDropped => s.running && s.queue == []
    case Frame(_) => s.running
    case BadFrame(_, first) => s.running && (s.pending != map[] ==> first in s.pending)
    case StreamFailed(_, first) => s.running && (s.pending != map[] ==> first in s.pending)
    case PeerClosed => s.running
    case Aborted => s.running
    case Cancelled(slot) => slot < |s.history| && slot !in s.spent && slot !in s.cancelled
    case ReservationStarted => true
    case ReservationEnded => true
  }

  /** Uses up the reply channel of `slot`; the value is lost when the caller has gone. */
  function Settle(s: State, slot: nat, o: Outcome): State {
    s.(spent := s.spent + {slot},
       replies := if slot in s.cancelled then s.replies else s.replies[slot := o])
  }

  function PendingSlots(pending: map<string, Pending>): set<nat> {
    set id | id in pending :: pending[id].slot
  }

  function QueueSlots(queue: seq<Outbound>): set<nat> {
    set i | 0 <= i < |queue| :: queue[i].slot
  }

  /** The answers a drain gives to `slots`. */
  function DrainReplies(s: State, err: CallError, first: string, slots: set<nat>): map<nat, Outcome> {
    map slot | slot in slots - s.cancelled ::
      if first in s.pending && s.pending[first].slot == slot then Err(err) else CLOSED_OUTCOME
  }

  /** Answers every pending request, the first one drained with `err` and the others with `Closed`. */
  function Drain(s: State, err: CallError, first: string): State {
    var slots := PendingSlots(s.pending);
    s.(pending := map[],
       inFlight := DownBy(s.inFlight, |s.pending|),
       spent := s.spent + slots,
       replies := s.replies + DrainReplies(s, err, first, slots))
  }

  /** The loop returns: every reply channel it still holds is dropped. */
  function Stop(s: State): State {
    var slots := PendingSlots(s.pending) + QueueSlots(s.queue);
    s.(queue := [],
       pending := map[],
       running := false,
       spent := s.spent + slots,
       replies := s.replies + map slot | slot in slots - s.cancelled :: CLOSED_OUTCOME)
  }

  function Submit(s: State, request: Request): State {
    var slot := |s.history|;
    var t := s.(history := s.history + [request]);
    if s.running then t.(queue := s.queue + [Outbound(slot, request.id, KindOf(request))])
    else Settle(t, slot, CLOSED_OUTCOME)
  }

  /** The head of the queue is on the wire; inserting its id drops an older entry of the same id. */
  function Write(s: State): State
    requires s.queue != []
  {
    var o := s.queue[0];
    var pending := s.pending[o.id := Pending(o.slot, o.kind)];
    var t := s.(queue := s.queue[1..], inFlight := Up(s.inFlight), pending := pending);
    if o.id in s.pending then Settle(t, s.pending[o.id].slot, CLOSED_OUTCOME) else t
  }

  /** The head of the queue could not be written: its caller gets the error. */
  function FailHead(s: State, e: TransportError): State
    requires s.queue != []
  {
    Settle(s.(queue := s.queue[1..]), s.queue[0].slot, Err(Transport(e)))
  }

  function FailWrite(s: State, e: TransportError): State
    requires s.queue != []
  {
    Stop(Drain(FailHead(s, e), Transport(Closed), ""))
  }

  function Receive(s: State, a: Arrival): State {
    match Route(a)
    case None => s
    case Some(id) =>
      if id !in s.pending then s
      else
        var p := s.pending[id];
        Settle(s.(pending := s.pending - {id}, inFlight := Down(s.inFlight)), p.slot, Answer(p.kind, a))
  }

  /** An event that cannot happen in `s` changes nothing. */
  function Step(s: State, ev: Event): State {
    if !Enabled(s, ev) then s
    else
      match ev
      case Submitted(request) => Submit(s, request)
      case Written => Write(s)
      case WriteFailed(e) => FailWrite(s, e)
      case HandlesDropped => Stop(s)
      case Frame(a) => Receive(s, a)
      case BadFrame(detail, first) => Stop(Drain(s, Protocol(MalformedJson(detail)), first))
      case StreamFailed(e, first) => Stop(Drain(s, Transport(e), first))
      case PeerClosed => Stop(Drain(s, Transport(Closed), ""))
      case Aborted => Stop(s)
      case Cancelled(slot) => s.(cancelled := s.cancelled + {slot})
      case ReservationStarted => s.(inFlight := SENTINEL)
      case ReservationEnded => s.(inFlight := 0)
  }

  function Run(s: State, events: seq<Event>): State {
    if events == [] then s else Step(Run(s, events[..|events| - 1]), events[|events| - 1])
  }

  /** Every event happens when it can. */
  predicate Feasible(s: State, events: seq<Event>) {
    events != [] ==>
      var init := events[..|events| - 1];
      Feasible(s, init) && Enabled(Run(s, init), events[|events| - 1])
  }
}
