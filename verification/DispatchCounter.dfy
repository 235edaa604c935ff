/** What the shared counter says about the outstanding requests. */
module DispatchCounter {
  import opened Wrappers
  import opened Json
  import opened Protocol
  import opened Correlation
  import opened Counter
  import opened Dispatch
  import opened DispatchInvariant
  import opened DispatchRefinement

  /**
    How far the counter moves away from the number of pending requests on an
    event: a write that displaces an entry counts one too many, and an exit
    without a drain leaves the entries it drops counted.
   */
  function Drift(s: State, ev: Event): nat {
    if !Enabled(s, ev) then 0
    else
      match ev
      case Written => if s.queue[0].id in s.pending then 1 else 0
      case HandlesDropped => |s.pending|
      case Aborted => |s.pending|
      case _ => 0
  }

  function TotalDrift(s: State, events: seq<Event>): nat {
    if events == [] then 0
    else
      var init := events[..|events| - 1];
      TotalDrift(s, init) + Drift(Run(s, init), events[|events| - 1])
  }

  predicate TouchesReservation(ev: Event) {
    ev.ReservationStarted? || ev.ReservationEnded?
  }

  predicate Quiet(events: seq<Event>) {
    forall i :: 0 <= i < |events| ==> !TouchesReservation(events[i])
  }

  /** `s` counts its pending requests from `base` on. */
  predicate Counts(s: State, base: int) {
    s.inFlight == Wrap(base + |s.pending|)
  }

  lemma WriteCounts(s: State, base: int)
    requires Counts(s, base) && s.queue != []
    ensures Counts(Write(s), base + if s.queue[0].id in s.pending then 1 else 0)
  {
    var p, n := s.pending[s.queue[0].id := Pending(s.queue[0].slot, s.queue[0].kind)], |s.pending|;
    assert |p| == if s.queue[0].id in s.pending then n else n + 1;
    UpReads(s.inFlight, base + n, base + n + 1);
  }

  lemma ReceiveCounts(s: State, v: Arrival, base: int)
    requires Counts(s, base)
    ensures Counts(Receive(s, v), base)
  {
    var n := |s.pending|;
    DownReads(s.inFlight, base + n, base + n - 1);
  }

  lemma ShutdownCounts(s: State, err: CallError, first: string, base: int)
    requires Counts(s, base)
    ensures Counts(Stop(Drain(s, err, first)), base)
  {
    DownByReads(s.inFlight, base + |s.pending|, |s.pending|, base);
  }

  lemma StopCounts(s: State, base: int)
    requires Counts(s, base)
    ensures Counts(Stop(s), base + |s.pending|)
  {
  }

  lemma FailWriteCounts(s: State, e: TransportError, base: int)
    requires Counts(s, base) && s.queue != []
    ensures Counts(FailWrite(s, e), base)
  {
    ShutdownCounts(FailHead(s, e), Transport(Closed), "", base);
  }

  lemma StepCounts(s: State, ev: Event, base: int)
    requires Counts(s, base) && !TouchesReservation(ev)
    ensures Counts(Step(s, ev), base + Drift(s, ev))
  {
    if Enabled(s, ev) {
      match ev
      case Written => WriteCounts(s, base);
      case WriteFailed(e) => FailWriteCounts(s, e, base);
      case Frame(v) => ReceiveCounts(s, v, base);
      case Submitted(_) =>
      case Cancelled(_) =>
      case ReservationStarted =>
      case ReservationEnded =>
      case BadFrame(detail, first) => ShutdownCounts(s, Protocol(MalformedJson(detail)), first, base);
      case StreamFailed(e, first) => ShutdownCounts(s, Transport(e), first, base);
      case PeerClosed => ShutdownCounts(s, Transport(Closed), "", base);
      case HandlesDropped => StopCounts(s, base);
      case Aborted => StopCounts(s, base);
    }
  }

  lemma StepReaches(s: State, ev: Event, base: int, end: int)
    requires Counts(s, base) && !TouchesReservation(ev) && end == base + Drift(s, ev)
    ensures Counts(Step(s, ev), end)
  {
    StepCounts(s, ev, base);
  }

  /** Between reservations the counter follows the number of pending requests, up to the drift. */
  lemma {:induction false} RunCounts(s: State, events: seq<Event>, base: int, end: int)
    requires Counts(s, base) && Quiet(events) && end == base + TotalDrift(s, events)
    ensures Counts(Run(s, events), end)
  {
    if events == [] {
    } else {
      var init, last := events[..|events| - 1], events[|events| - 1];
      var before := base + TotalDrift(s, init);
      RunCounts(s, init, base, before);
      StepReaches(Run(s, init), last, before, end);
    }
  }

  predicate Drains(ev: Event) {
    !ev.HandlesDropped? && !ev.Aborted?
  }

  /** With distinct ids and no exit that skips the drain there is no drift. */
  lemma {:induction false} NoDrift(s: State, events: seq<Event>)
    requires Inv(s) && DistinctIds(Run(s, events).history)
    requires forall i :: 0 <= i < |events| ==> Drains(events[i])
    ensures TotalDrift(s, events) == 0
  {
    if events == [] {
    } else {
      var init, last := events[..|events| - 1], events[|events| - 1];
      var u := Run(s, init);
      StepKeepsHistory(u, last);
      assert DistinctIds(u.history);
      NoDrift(s, init);
      RunKeepsInv(s, init);
      assert Drains(last);
      if last == Written && u.queue != [] {
        WriteIsFresh(u);
      }
    }
  }

  lemma SegmentCounts(s: State, events: seq<Event>, base: int)
    requires Inv(s) && Counts(s, base) && Quiet(events) && DistinctIds(Run(s, events).history)
    requires forall i :: 0 <= i < |events| ==> Drains(events[i])
    ensures Counts(Run(s, events), base)
  {
    NoDrift(s, events);
    RunCounts(s, events, base, base);
  }

  lemma CountsFromZero(t: State)
    requires Counts(t, 0)
    ensures t.inFlight == Wrap(|t.pending|)
  {
  }

  lemma {:induction false} QuietRunCounts(events: seq<Event>, t: State)
    requires Quiet(events) && t == Run(INIT, events) && DistinctIds(t.history)
    requires forall i :: 0 <= i < |events| ==> Drains(events[i])
    ensures Counts(t, 0)
  {
    SegmentCounts(INIT, events, 0);
  }

  /**
    On a connection that was never reserved the counter is the number of
    pending requests, read modulo 2^32.
   */
  lemma CounterIsPendingCount(events: seq<Event>)
    requires Quiet(events) && DistinctIds(Run(INIT, events).history)
    requires forall i :: 0 <= i < |events| ==> Drains(events[i])
    ensures Run(INIT, events).inFlight == Wrap(|Run(INIT, events).pending|)
  {
    QuietRunCounts(events, Run(INIT, events));
    CountsFromZero(Run(INIT, events));
  }

  // ---- reservations ---------------------------------------------------------

  lemma SentinelReads(c: u32, n: nat, p: nat)
    requires c == Wrap(SENTINEL - p + n)
    ensures c == SENTINEL <==> (n - p) % MODULUS == 0
  {
    OffsetVanishes(SENTINEL, n - p);
  }

  lemma ReleasedReads(c: u32, n: nat, p: nat)
    requires c == Wrap(0 - p + n)
    ensures c == Wrap(n) <==> p % MODULUS == 0
  {
    OffsetVanishes(n, 0 - p);
  }

  lemma ReservationCounts(s: State, r: State, base: int)
    requires r == Step(s, ReservationStarted) && base == SENTINEL - |s.pending|
    ensures Counts(r, base)
  {
  }

  lemma ReleaseCounts(s: State, r: State, base: int)
    requires r == Step(s, ReservationEnded) && base == 0 - |s.pending|
    ensures Counts(r, base)
  {
  }

  lemma ReservedSegment(s: State, ev: Event, r: State, events: seq<Event>, t: State, base: int)
    requires Inv(s) && r == Step(s, ev) && Quiet(events) && t == Run(r, events) && Counts(r, base)
    requires forall i :: 0 <= i < |events| ==> Drains(events[i])
    requires DistinctIds(t.history)
    ensures Counts(t, base)
  {
    StepKeepsInv(s, ev);
    SegmentCounts(r, events, base);
  }

  /** The requests an event leaves counted although it drops them. */
  function Abandoned(s: State, ev: Event): nat {
    if !Drains(ev) && Enabled(s, ev) then |s.pending| else 0
  }

  /** Reservations set the base anew, and an exit that skips the drain adds to it. */
  function NextBase(s: State, ev: Event, base: int): int {
    match ev
    case ReservationStarted => SENTINEL - |s.pending|
    case ReservationEnded => 0 - |s.pending|
    case _ => base + Abandoned(s, ev)
  }

  /** The number the counter is off by after `events`. */
  function Base(events: seq<Event>): int {
    if events == [] then 0
    else
      var init := events[..|events| - 1];
      NextBase(Run(INIT, init), events[|events| - 1], Base(init))
  }

  lemma DriftIsAbandoned(s: State, ev: Event)
    requires Inv(s) && DistinctIds(s.history)
    ensures Drift(s, ev) == Abandoned(s, ev)
  {
    if ev == Written && s.queue != [] {
      WriteIsFresh(s);
    }
  }

  lemma QuietFollowsBase(s: State, ev: Event, base: int, next: int)
    requires Inv(s) && DistinctIds(s.history) && Counts(s, base) && !TouchesReservation(ev) &&
      next == base + Abandoned(s, ev)
    ensures Counts(Step(s, ev), next)
  {
    DriftIsAbandoned(s, ev);
    StepReaches(s, ev, base, next);
  }

  lemma StepFollowsBase(s: State, ev: Event, base: int, next: int)
    requires Inv(s) && DistinctIds(s.history) && Counts(s, base) && next == NextBase(s, ev, base)
    ensures Counts(Step(s, ev), next)
  {
    match ev
    case ReservationStarted => ReservationCounts(s, Step(s, ev), next);
    case ReservationEnded => ReleaseCounts(s, Step(s, ev), next);
    case _ => QuietFollowsBase(s, ev, base, next);
  }

  /** In every reachable state of every run with distinct ids the counter is base plus pending, read modulo 2^32. */
  lemma {:induction false} CounterLaw(events: seq<Event>)
    requires DistinctIds(Run(INIT, events).history)
    ensures Counts(Run(INIT, events), Base(events))
  {
    if events == [] {
    } else {
      var init, last := events[..|events| - 1], events[|events| - 1];
      StepKeepsHistory(Run(INIT, init), last);
      CounterLaw(init);
      RunKeepsInv(INIT, init);
      StepFollowsBase(Run(INIT, init), last, Base(init), Base(events));
    }
  }

  /**
    While a reservation holds the connection the counter is at the sentinel
    exactly when the number of pending requests is what it was at the start,
    modulo 2^32.
   */
  lemma SentinelLaw(s: State, r: State, events: seq<Event>, t: State)
    requires Inv(s) && r == Step(s, ReservationStarted) && Quiet(events) && t == Run(r, events)
    requires forall i :: 0 <= i < |events| ==> Drains(events[i])
    requires DistinctIds(t.history)
    ensures t.inFlight == Wrap(SENTINEL - |s.pending| + |t.pending|)
    ensures t.inFlight == SENTINEL <==> (|t.pending| - |s.pending|) % MODULUS == 0
  {
    ReservationCounts(s, r, SENTINEL - |s.pending|);
    ReservedSegment(s, ReservationStarted, r, events, t, SENTINEL - |s.pending|);
    SentinelReads(t.inFlight, |t.pending|, |s.pending|);
  }

  /**
    After a reservation ends the counter is off by exactly what was pending
    then; it is exact again only if nothing was.
   */
  lemma ReleaseLaw(s: State, r: State, events: seq<Event>, t: State)
    requires Inv(s) && r == Step(s, ReservationEnded) && Quiet(events) && t == Run(r, events)
    requires forall i :: 0 <= i < |events| ==> Drains(events[i])
    requires DistinctIds(t.history)
    ensures t.inFlight == Wrap(0 - |s.pending| + |t.pending|)
    ensures t.inFlight == Wrap(|t.pending|) <==> |s.pending| % MODULUS == 0
  {
    ReleaseCounts(s, r, 0 - |s.pending|);
    ReservedSegment(s, ReservationEnded, r, events, t, 0 - |s.pending|);
    ReleasedReads(t.inFlight, |t.pending|, |s.pending|);
  }
}
