/** What every reachable dispatcher state keeps. */
module DispatchInvariant {
  import opened Wrappers
  import opened Json
  import opened Protocol
  import opened Correlation
  import opened Counter
  import opened Dispatch

  ghost predicate IsQueued(s: State, slot: nat) {
    exists i :: 0 <= i < |s.queue| && s.queue[i].slot == slot
  }

  ghost predicate IsPending(s: State, slot: nat) {
    slot < |s.history| && s.history[slot].id in s.pending && s.pending[s.history[slot].id].slot == slot
  }

  ghost predicate QueueOk(s: State) {
    && (forall i :: 0 <= i < |s.queue| ==>
          && s.queue[i].slot < |s.history|
          && s.queue[i].id == s.history[s.queue[i].slot].id
          && s.queue[i].kind == KindOf(s.history[s.queue[i].slot]))
    && (forall i, j :: 0 <= i < j < |s.queue| ==> s.queue[i].slot < s.queue[j].slot)
  }

  ghost predicate PendingOk(s: State) {
    forall id :: id in s.pending ==>
      && s.pending[id].slot < |s.history|
      && id == s.history[s.pending[id].slot].id
      && s.pending[id].kind == KindOf(s.history[s.pending[id].slot])
  }

  /** Each submitted request is queued, pending or spent, and no two of these at once. */
  ghost predicate Conserved(s: State) {
    && (forall slot: nat :: slot < |s.history| ==> IsQueued(s, slot) || IsPending(s, slot) || slot in s.spent)
    && (forall slot: nat :: slot in s.spent ==> slot < |s.history| && !IsQueued(s, slot) && !IsPending(s, slot))
    && (forall slot: nat :: !(IsQueued(s, slot) && IsPending(s, slot)))
  }

  /** A caller that is still there has its reply exactly when its channel is spent. */
  ghost predicate RepliesOk(s: State) {
    && (forall slot: nat :: slot in s.replies <==> slot in s.spent && slot !in s.cancelled)
    && (forall slot: nat :: slot in s.cancelled ==> slot < |s.history|)
  }

  ghost predicate Inv(s: State) {
    && QueueOk(s) && PendingOk(s) && Conserved(s) && RepliesOk(s)
    && (!s.running ==> s.queue == [] && s.pending == map[])
  }

  lemma PendingSlotsAre(s: State, slot: nat)
    requires PendingOk(s)
    ensures slot in PendingSlots(s.pending) <==> IsPending(s, slot)
  {
    if slot in PendingSlots(s.pending) {
      var id :| id in s.pending && s.pending[id].slot == slot;
    }
    if IsPending(s, slot) {
      assert s.history[slot].id in s.pending;
    }
  }

  /** `rest` is part of the pending requests. */
  ghost predicate Left(s: State, rest: map<string, Pending>) {
    forall k :: k in rest ==> k in s.pending && rest[k] == s.pending[k]
  }

  lemma RemoveSlot(s: State, rest: map<string, Pending>, id: string)
    requires PendingOk(s) && Left(s, rest) && id in rest
    ensures PendingSlots(rest - {id}) == PendingSlots(rest) - {rest[id].slot}
    ensures rest[id].slot in PendingSlots(rest) && rest[id].slot in PendingSlots(s.pending)
  {
    var slot := rest[id].slot;
    forall k | k in rest && k != id ensures rest[k].slot != slot {
      assert s.history[rest[k].slot].id == k;
    }
    forall x | x in PendingSlots(rest) && x != slot ensures x in PendingSlots(rest - {id}) {
      var k :| k in rest && rest[k].slot == x;
      assert k in rest - {id};
    }
    assert s.pending[id].slot == slot;
  }

  lemma DrainKeepsInv(s: State, err: CallError, first: string)
    requires Inv(s)
    ensures Inv(Drain(s, err, first))
  {
    var t := Drain(s, err, first);
    forall slot: nat ensures slot in t.spent <==> slot in s.spent || IsPending(s, slot) {
      PendingSlotsAre(s, slot);
    }
    assert forall slot: nat :: IsQueued(t, slot) <==> IsQueued(s, slot);
  }

  lemma StopKeepsInv(s: State)
    requires Inv(s)
    ensures Inv(Stop(s))
  {
    var t := Stop(s);
    forall slot: nat ensures slot in t.spent <==> slot in s.spent || IsPending(s, slot) || IsQueued(s, slot) {
      PendingSlotsAre(s, slot);
    }
  }

  /** A request submitted while the loop runs is queued behind the others. */
  lemma SubmitFacts(s: State, request: Request)
    requires Inv(s) && s.running
    ensures var t := Submit(s, request);
      && QueueOk(t) && PendingOk(t)
      && (forall slot: nat :: IsQueued(t, slot) <==> IsQueued(s, slot) || slot == |s.history|)
      && (forall slot: nat :: IsPending(t, slot) <==> IsPending(s, slot))
  {
    var t := Submit(s, request);
    forall slot: nat ensures IsQueued(t, slot) <==> IsQueued(s, slot) || slot == |s.history| {
      assert t.queue[|s.queue|].slot == |s.history|;
      assert forall i :: 0 <= i < |s.queue| ==> t.queue[i] == s.queue[i];
    }
    forall slot: nat | slot < |s.history| ensures IsPending(t, slot) <==> IsPending(s, slot) {
      assert t.history[slot] == s.history[slot];
    }
  }

  lemma SubmitKeepsInv(s: State, request: Request)
    requires Inv(s)
    ensures Inv(Submit(s, request))
  {
    if s.running {
      SubmitFacts(s, request);
    } else {
      assert Submit(s, request).queue == [] && Submit(s, request).pending == map[];
    }
  }

  lemma DequeueFacts(s: State, t: State)
    requires QueueOk(s) && s.queue != []
    requires t.queue == s.queue[1..]
    ensures forall slot: nat :: IsQueued(t, slot) <==> IsQueued(s, slot) && slot != s.queue[0].slot
  {
    forall slot: nat ensures IsQueued(t, slot) <==> IsQueued(s, slot) && slot != s.queue[0].slot {
      if IsQueued(t, slot) {
        var i :| 0 <= i < |t.queue| && t.queue[i].slot == slot;
        assert s.queue[i + 1].slot == slot;
      }
      if IsQueued(s, slot) && slot != s.queue[0].slot {
        var i :| 0 <= i < |s.queue| && s.queue[i].slot == slot;
        assert t.queue[i - 1].slot == slot;
      }
    }
  }

  /** After a write the written slot is pending, and only an older entry of the same id has stopped being so. */
  lemma WriteFacts(s: State)
    requires Inv(s) && s.queue != []
    ensures var t, o := Write(s), s.queue[0];
      && IsQueued(s, o.slot) && !IsPending(s, o.slot)
      && QueueOk(t) && PendingOk(t)
      && (forall slot: nat :: IsQueued(t, slot) <==> IsQueued(s, slot) && slot != o.slot)
      && (forall slot: nat :: IsPending(t, slot) <==>
        slot == o.slot || (IsPending(s, slot) && s.history[slot].id != o.id))
      && (o.id in s.pending ==> IsPending(s, s.pending[o.id].slot))
  {
    var t, o := Write(s), s.queue[0];
    DequeueFacts(s, t);
    assert IsQueued(s, o.slot);
    if o.id in s.pending {
      assert IsPending(s, s.pending[o.id].slot);
    }
  }

  lemma WriteKeepsInv(s: State)
    requires Inv(s) && s.queue != [] && s.running
    ensures Inv(Write(s))
  {
    WriteFacts(s);
  }

  lemma ReceiveKeepsInv(s: State, v: Arrival)
    requires Inv(s)
    ensures Inv(Receive(s, v))
  {
    var t := Receive(s, v);
    match Route(v)
    case None =>
    case Some(id) =>
      if id in s.pending {
        assert IsPending(s, s.pending[id].slot);
        assert t.queue == s.queue;
        assert forall slot: nat :: IsQueued(t, slot) <==> IsQueued(s, slot);
        forall slot: nat ensures IsPending(t, slot) <==> IsPending(s, slot) && slot != s.pending[id].slot {
        }
      }
  }

  lemma FailHeadKeepsInv(s: State, e: TransportError)
    requires Inv(s) && s.queue != []
    ensures var t, head := FailHead(s, e), s.queue[0].slot;
      && Inv(t) && IsQueued(s, head) && t.history == s.history && t.queue == s.queue[1..]
      && (forall slot: nat :: IsPending(t, slot) <==> IsPending(s, slot))
      && (forall slot: nat :: IsQueued(t, slot) <==> IsQueued(s, slot) && slot != head)
  {
    var t := FailHead(s, e);
    DequeueFacts(s, t);
    assert IsQueued(s, s.queue[0].slot);
    assert forall slot: nat :: IsPending(t, slot) <==> IsPending(s, slot);
  }

  lemma FailWriteKeepsInv(s: State, e: TransportError)
    requires Inv(s) && s.queue != []
    ensures Inv(FailWrite(s, e))
  {
    FailHeadKeepsInv(s, e);
    ShutdownKeepsInv(FailHead(s, e), Transport(Closed), "");
  }

  lemma ShutdownKeepsInv(s: State, err: CallError, first: string)
    requires Inv(s)
    ensures Inv(Stop(Drain(s, err, first)))
  {
    DrainKeepsInv(s, err, first);
    StopKeepsInv(Drain(s, err, first));
  }

  /** Cancelling and reserving touch neither the queue nor the pending requests. */
  lemma SameQueues(s: State, t: State)
    requires Inv(s) && t.history == s.history && t.queue == s.queue && t.pending == s.pending && t.running == s.running
    requires t.spent == s.spent && t.replies == s.replies
    requires s.cancelled <= t.cancelled && forall k :: k in t.cancelled ==> k < |s.history|
    requires forall k :: k in t.cancelled && k !in s.cancelled ==> k !in s.spent
    ensures Inv(t)
  {
    assert forall k: nat :: (IsQueued(t, k) <==> IsQueued(s, k)) && (IsPending(t, k) <==> IsPending(s, k));
  }

  lemma StepKeepsInv(s: State, ev: Event)
    requires Inv(s)
    ensures Inv(Step(s, ev))
  {
    if Enabled(s, ev) {
      match ev
      case Submitted(request) => SubmitKeepsInv(s, request);
      case Written => WriteKeepsInv(s);
      case WriteFailed(e) => FailWriteKeepsInv(s, e);
      case HandlesDropped => StopKeepsInv(s);
      case Frame(v) => ReceiveKeepsInv(s, v);
      case BadFrame(detail, first) => ShutdownKeepsInv(s, Protocol(MalformedJson(detail)), first);
      case StreamFailed(e, first) => ShutdownKeepsInv(s, Transport(e), first);
      case PeerClosed => ShutdownKeepsInv(s, Transport(Closed), "");
      case Aborted => StopKeepsInv(s);
      case Cancelled(slot) => SameQueues(s, s.(cancelled := s.cancelled + {slot}));
      case ReservationStarted => SameQueues(s, s.(inFlight := SENTINEL));
      case ReservationEnded => SameQueues(s, s.(inFlight := 0));
    }
  }

  lemma {:induction false} RunKeepsInv(s: State, events: seq<Event>)
    requires Inv(s)
    ensures Inv(Run(s, events))
  {
    if events == [] {
    } else {
      RunKeepsInv(s, events[..|events| - 1]);
      StepKeepsInv(Run(s, events[..|events| - 1]), events[|events| - 1]);
    }
  }
}
