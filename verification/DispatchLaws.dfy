/** Laws of whole dispatcher runs. */
module DispatchLaws {
  import opened Wrappers
  import opened Json
  import opened Protocol
  import opened Correlation
  import opened Counter
  import opened Dispatch
  import opened DispatchInvariant
  import opened DispatchRefinement

  // ---- conservation ---------------------------------------------------------

  /**
    In every reachable state a submitted request is in exactly one place, and
    once the loop has returned nobody is left waiting.
   */
  lemma RunConserves(events: seq<Event>, slot: nat)
    requires slot < |Run(INIT, events).history|
    ensures var s := Run(INIT, events);
      && (IsQueued(s, slot) || IsPending(s, slot) || slot in s.spent)
      && !(IsQueued(s, slot) && IsPending(s, slot))
      && !(IsQueued(s, slot) && slot in s.spent)
      && !(IsPending(s, slot) && slot in s.spent)
      && (slot in s.replies <==> slot in s.spent && slot !in s.cancelled)
      && (!s.running && slot !in s.cancelled ==> slot in s.replies)
  {
    RunKeepsInv(INIT, events);
  }

  lemma DrainKeepsReplies(s: State, err: CallError, first: string)
    requires Inv(s)
    ensures forall k :: k in s.replies ==>
      k in Drain(s, err, first).replies && Drain(s, err, first).replies[k] == s.replies[k]
  {
    forall k: nat { PendingSlotsAre(s, k); }
  }

  lemma StopKeepsReplies(s: State)
    requires Inv(s)
    ensures forall k :: k in s.replies ==> k in Stop(s).replies && Stop(s).replies[k] == s.replies[k]
  {
    forall k: nat { PendingSlotsAre(s, k); }
  }

  // ---- draining -------------------------------------------------------------

  lemma {:induction false} SlotsCounted(s: State, rest: map<string, Pending>)
    requires PendingOk(s) && Left(s, rest)
    ensures |PendingSlots(rest)| == |rest|
    decreases |rest|
  {
    if rest == map[] {
    } else {
      var id :| id in rest;
      RemoveSlot(s, rest, id);
      assert rest == (rest - {id})[id := rest[id]];
      SlotsCounted(s, rest - {id});
    }
  }

  lemma DrainSpends(s: State, err: CallError, first: string)
    requires Inv(s)
    ensures Drain(s, err, first).spent == s.spent + PendingSlots(s.pending)
    ensures s.spent !! PendingSlots(s.pending)
    ensures |PendingSlots(s.pending)| == |s.pending|
  {
    SlotsCounted(s, s.pending);
    forall k: nat { PendingSlotsAre(s, k); }
  }

  lemma DrainUses(s: State, err: CallError, first: string, used: set<nat>)
    requires Inv(s)
    requires used == Drain(s, err, first).spent - s.spent
    ensures forall slot: nat :: slot in used <==> IsPending(s, slot)
    ensures |used| == |s.pending|
  {
    DrainSpends(s, err, first);
    assert used == PendingSlots(s.pending);
    forall k: nat { PendingSlotsAre(s, k); }
  }

  lemma DrainLowers(s: State, err: CallError, first: string, used: set<nat>)
    requires |used| == |s.pending|
    ensures Drain(s, err, first).inFlight == Wrap(s.inFlight - |used|)
  {
    DownByReads(s.inFlight, s.inFlight, |used|, s.inFlight - |used|);
  }

  /**
    A drain uses up exactly the reply channels of the pending requests and
    lowers the counter once for each. `used` names the channels it uses up.
   */
  lemma DrainCounts(s: State, err: CallError, first: string, used: set<nat>)
    requires Inv(s)
    requires used == Drain(s, err, first).spent - s.spent
    ensures forall slot: nat :: slot in used <==> IsPending(s, slot)
    ensures Drain(s, err, first).inFlight == Wrap(s.inFlight - |used|)
  {
    DrainUses(s, err, first, used);
    DrainLowers(s, err, first, used);
  }

  /** Among the callers a drain answers, only the one drained first can get the specific error. */
  lemma DrainAnswers(s: State, err: CallError, first: string, slot: nat)
    requires Inv(s) && slot !in s.replies && slot in Drain(s, err, first).replies
    ensures Drain(s, err, first).replies[slot] == if s.history[slot].id == first then Err(err) else CLOSED_OUTCOME
  {
    PendingSlotsAre(s, slot);
  }

  // ---- replies are final ----------------------------------------------------

  ghost predicate KeepsReplies(s: State, t: State) {
    forall slot :: slot in s.replies ==> slot in t.replies && t.replies[slot] == s.replies[slot]
  }

  lemma ShutdownKeepsReplies(s: State, err: CallError, first: string)
    requires Inv(s)
    ensures KeepsReplies(s, Stop(Drain(s, err, first)))
  {
    DrainKeepsReplies(s, err, first);
    DrainKeepsInv(s, err, first);
    StopKeepsReplies(Drain(s, err, first));
  }

  lemma FailWriteKeepsReplies(s: State, e: TransportError)
    requires Inv(s) && s.queue != []
    ensures KeepsReplies(s, FailWrite(s, e))
  {
    FailHeadKeepsInv(s, e);
    assert KeepsReplies(s, FailHead(s, e));
    ShutdownKeepsReplies(FailHead(s, e), Transport(Closed), "");
  }

  lemma ReceiveKeepsReplies(s: State, v: Arrival)
    requires Inv(s)
    ensures KeepsReplies(s, Receive(s, v))
  {
    if Route(v).Some? && Route(v).value in s.pending {
      assert IsPending(s, s.pending[Route(v).value].slot);
    }
  }

  lemma WriteKeepsReplies(s: State)
    requires Inv(s) && s.queue != []
    ensures KeepsReplies(s, Write(s))
  {
    WriteFacts(s);
  }

  lemma StepKeepsReplies(s: State, ev: Event)
    requires Inv(s)
    ensures KeepsReplies(s, Step(s, ev))
  {
    if Enabled(s, ev) {
      match ev
      case WriteFailed(e) => FailWriteKeepsReplies(s, e);
      case BadFrame(detail, first) => ShutdownKeepsReplies(s, Protocol(MalformedJson(detail)), first);
      case StreamFailed(e, first) => ShutdownKeepsReplies(s, Transport(e), first);
      case PeerClosed => ShutdownKeepsReplies(s, Transport(Closed), "");
      case HandlesDropped => StopKeepsReplies(s);
      case Aborted => StopKeepsReplies(s);
      case Frame(v) => ReceiveKeepsReplies(s, v);
      case Written => WriteKeepsReplies(s);
      case _ =>
    }
  }

  /** A caller is answered once: whatever happens later, its reply stays what it was. */
  lemma {:induction false} RepliesAreFinal(s: State, events: seq<Event>, slot: nat)
    requires Inv(s) && slot in s.replies
    ensures slot in Run(s, events).replies && Run(s, events).replies[slot] == s.replies[slot]
  {
    if events == [] {
    } else {
      RepliesAreFinal(s, events[..|events| - 1], slot);
      RunKeepsInv(s, events[..|events| - 1]);
      StepKeepsReplies(Run(s, events[..|events| - 1]), events[|events| - 1]);
    }
  }

  // ---- frames ---------------------------------------------------------------

  /**
    A frame, decodable or not, concerns at most the one pending request whose
    id it carries; it lowers the counter exactly when there is one and leaves
    every other request where it was.
   */
  lemma FrameIsLocal(s: State, v: Arrival)
    requires Inv(s) && s.running
    ensures var t := Step(s, Frame(v));
      && t.history == s.history && t.queue == s.queue && t.running && t.cancelled == s.cancelled
      && (if Route(v).Some? && Route(v).value in s.pending then
            var slot := s.pending[Route(v).value].slot;
            && s.history[slot].id == Route(v).value
            && t.pending == s.pending - {Route(v).value}
            && t.inFlight == Down(s.inFlight)
            && t.spent == s.spent + {slot} && slot !in s.spent
            && (forall k :: k != slot ==> (k in t.replies <==> k in s.replies))
            && (forall k :: k in s.replies ==> t.replies[k] == s.replies[k])
          else
            t == s)
  {
    if Route(v).Some? && Route(v).value in s.pending {
      assert IsPending(s, s.pending[Route(v).value].slot);
    }
  }

  /** Every successful reply carries the id of the request it answers. */
  ghost predicate RepliesMatchIds(s: State) {
    forall slot :: slot in s.replies && s.replies[slot].Ok? ==>
      slot < |s.history| && ResponseId(s.replies[slot].value) == s.history[slot].id
  }

  lemma StopRepliesMatch(s: State)
    requires RepliesMatchIds(s)
    ensures RepliesMatchIds(Stop(s))
  {
  }

  lemma DrainRepliesMatch(s: State, err: CallError, first: string)
    requires RepliesMatchIds(s)
    ensures RepliesMatchIds(Drain(s, err, first))
  {
  }

  lemma ShutdownRepliesMatch(s: State, err: CallError, first: string)
    requires RepliesMatchIds(s)
    ensures RepliesMatchIds(Stop(Drain(s, err, first)))
  {
    DrainRepliesMatch(s, err, first);
    StopRepliesMatch(Drain(s, err, first));
  }

  lemma FailWriteRepliesMatch(s: State, e: TransportError)
    requires RepliesMatchIds(s) && s.queue != []
    ensures RepliesMatchIds(FailWrite(s, e))
  {
    assert RepliesMatchIds(FailHead(s, e));
    ShutdownRepliesMatch(FailHead(s, e), Transport(Closed), "");
  }

  lemma ReceiveRepliesMatch(s: State, v: Arrival)
    requires Inv(s) && RepliesMatchIds(s)
    ensures RepliesMatchIds(Receive(s, v))
  {
    if Route(v).Some? && Route(v).value in s.pending {
      assert s.history[s.pending[Route(v).value].slot].id == Route(v).value;
    }
  }

  lemma StepRepliesMatch(s: State, ev: Event)
    requires Inv(s) && RepliesMatchIds(s)
    ensures RepliesMatchIds(Step(s, ev))
  {
    if Enabled(s, ev) {
      match ev
      case WriteFailed(e) => FailWriteRepliesMatch(s, e);
      case Frame(v) => ReceiveRepliesMatch(s, v);
      case BadFrame(detail, first) => ShutdownRepliesMatch(s, Protocol(MalformedJson(detail)), first);
      case StreamFailed(e, first) => ShutdownRepliesMatch(s, Transport(e), first);
      case PeerClosed => ShutdownRepliesMatch(s, Transport(Closed), "");
      case HandlesDropped => StopRepliesMatch(s);
      case Aborted => StopRepliesMatch(s);
      case _ =>
    }
  }

  /** No caller ever sees another caller's response, whatever the daemon sends. */
  lemma {:induction false} RunRepliesMatch(s: State, events: seq<Event>)
    requires Inv(s) && RepliesMatchIds(s)
    ensures RepliesMatchIds(Run(s, events))
  {
    if events == [] {
    } else {
      RunKeepsInv(s, events[..|events| - 1]);
      RunRepliesMatch(s, events[..|events| - 1]);
      StepRepliesMatch(Run(s, events[..|events| - 1]), events[|events| - 1]);
    }
  }

  // ---- the end of the loop --------------------------------------------------

  predicate EndsLoop(ev: Event) {
    ev.WriteFailed? || ev.HandlesDropped? || ev.BadFrame? || ev.StreamFailed? || ev.PeerClosed? || ev.Aborted?
  }

  lemma StepRuns(s: State, ev: Event)
    requires Enabled(s, ev)
    ensures Step(s, ev).running <==> s.running && !EndsLoop(ev)
    ensures EndsLoop(ev) ==> s.running
    ensures ev.HandlesDropped? ==> s.queue == []
    ensures ev.BadFrame? && s.pending != map[] ==> ev.first in s.pending
    ensures ev.StreamFailed? && s.pending != map[] ==> ev.first in s.pending
  {
  }

  /**
    The loop runs until the first event that ends it, and no longer: a failed write,
    bad JSON, a stream error, the peer's close, an abort, or the last handle
    being dropped once everything queued has been written.
   */
  lemma {:induction false} RunsUntilEnded(events: seq<Event>)
    requires Feasible(INIT, events)
    ensures Run(INIT, events).running <==> forall i :: 0 <= i < |events| ==> !EndsLoop(events[i])
    ensures forall i :: 0 <= i < |events| && EndsLoop(events[i]) ==> forall j :: 0 <= j < i ==> !EndsLoop(events[j])
    ensures forall i :: 0 <= i < |events| && events[i].HandlesDropped? ==> Run(INIT, events[..i]).queue == []
  {
    if events == [] {
    } else {
      var n := |events| - 1;
      RunsUntilEnded(events[..n]);
      StepRuns(Run(INIT, events[..n]), events[n]);
      forall i | 0 <= i < n && events[i].HandlesDropped? ensures Run(INIT, events[..i]).queue == [] {
        assert events[..n][i] == events[i] && events[..n][..i] == events[..i];
      }
      assert forall i :: 0 <= i < n ==> events[..n][i] == events[i];
    }
  }

  /** Whenever a request is submitted: it is queued behind the others, or answered at once when the loop has ended. */
  lemma {:induction false} SubmittedIsKept(events: seq<Event>, request: Request)
    ensures var s, t := Run(INIT, events), Run(INIT, events + [Submitted(request)]);
      && t.history == s.history + [request] && t.pending == s.pending && t.running == s.running
      && (s.running ==> t.queue == s.queue + [Outbound(|s.history|, request.id, KindOf(request))])
      && (!s.running ==> t.replies == s.replies[|s.history| := CLOSED_OUTCOME])
  {
    assert (events + [Submitted(request)])[..|events|] == events;
    RunKeepsInv(INIT, events);
  }
}
