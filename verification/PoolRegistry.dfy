/**
  The heap registry and the pool's state machine see the same jobs: each scan
  of the registry is an event of the pool.
 */
module PoolRegistry {
  import opened Wrappers
  import opened Json
  import opened Counter
  import opened Routing
  import opened Occupancy
  import Heap = Registry

  /** The registered jobs of the pool that are alive. */
  function Live(s: Pool): seq<nat>
    requires Valid(s)
  {
    Pruned(s, s.registry)
  }

  /** What a scan of the pool's registry sees. */
  function View(s: Pool): (snap: seq<Slot>)
    requires Valid(s)
    ensures |snap| == |Live(s)|
  {
    SnapshotOf(s, Live(s))
  }

  /** The live jobs on the heap are those of the pool, in the same order; entries still to be pruned do not matter. */
  ghost predicate Mirrors(s: Pool, weaks: seq<Heap.Job>)
    requires Valid(s)
    reads weaks
  {
    Heap.Snapshot(Heap.Survivors(weaks)) == View(s)
  }

  // ---- pruning --------------------------------------------------------------

  predicate Distinct(registry: seq<nat>) {
    forall i, j :: 0 <= i < j < |registry| ==> registry[i] != registry[j]
  }

  lemma {:induction false} PrunedAre(s: Pool, registry: seq<nat>)
    requires forall i :: 0 <= i < |registry| ==> registry[i] < |s.jobs|
    ensures forall j: nat :: j in Pruned(s, registry) ==> j < |s.jobs| && j in registry && Strong(s, j) > 0
  {
    if registry == [] {
    } else {
      var n := |registry| - 1;
      PrunedAre(s, registry[..n]);
      assert registry == registry[..n] + [registry[n]];
    }
  }

  lemma OneMoreDistinct(rest: seq<nat>, last: nat)
    requires Distinct(rest) && last !in rest
    ensures Distinct(rest + [last])
  {
  }

  lemma {:induction false} PrunedDistinct(s: Pool, registry: seq<nat>)
    requires Distinct(registry) && forall i :: 0 <= i < |registry| ==> registry[i] < |s.jobs|
    ensures Distinct(Pruned(s, registry))
  {
    if registry == [] {
    } else {
      var n := |registry| - 1;
      PrunedDistinct(s, registry[..n]);
      PrunedAre(s, registry[..n]);
      assert registry[n] !in registry[..n];
      OneMoreDistinct(Pruned(s, registry[..n]), registry[n]);
    }
  }

  /** Pruning only looks at who is alive. */
  lemma {:induction false} PrunedAlike(s: Pool, t: Pool, registry: seq<nat>)
    requires |s.jobs| <= |t.jobs| && forall i :: 0 <= i < |registry| ==> registry[i] < |s.jobs|
    requires forall i :: 0 <= i < |registry| ==> (Strong(s, registry[i]) > 0 <==> Strong(t, registry[i]) > 0)
    ensures Pruned(s, registry) == Pruned(t, registry)
  {
    if registry == [] {
    } else {
      PrunedAlike(s, t, registry[..|registry| - 1]);
    }
  }

  lemma {:induction false} AllStay(s: Pool, registry: seq<nat>)
    requires forall i :: 0 <= i < |registry| ==> registry[i] < |s.jobs| && Strong(s, registry[i]) > 0
    ensures Pruned(s, registry) == registry
  {
    if registry == [] {
    } else {
      AllStay(s, registry[..|registry| - 1]);
    }
  }

  lemma StepKeepsDistinct(s: Pool, ev: Event)
    requires Valid(s) && Distinct(s.registry)
    ensures Distinct(Step(s, ev).registry)
  {
    PrunedDistinct(s, s.registry);
  }

  lemma {:induction false} RunKeepsDistinct(events: seq<Event>)
    ensures Distinct(Run(events).registry)
  {
    if events == [] {
    } else {
      RunKeepsDistinct(events[..|events| - 1]);
      StepKeepsDistinct(Run(events[..|events| - 1]), events[|events| - 1]);
    }
  }

  // ---- one more reference ---------------------------------------------------

  /** The snapshot with one more reference to the chosen place. */
  function Raised(snap: seq<Slot>, at: Option<nat>): seq<Slot> {
    seq(|snap|, i requires 0 <= i < |snap| => Slot(snap[i].strong + (if at == Some(i) then 1 else 0), snap[i].count))
  }

  lemma HeapRaised(weaks: seq<Heap.Job>, before: seq<Slot>, at: Option<nat>)
    requires Heap.Shows(weaks, before, Heap.Chosen(at)) && forall i :: 0 <= i < |before| ==> before[i].strong > 0
    ensures Heap.Snapshot(Heap.Survivors(weaks)) == Raised(before, at)
  {
    var snap := Raised(before, at);
    assert Heap.Snapshot(weaks) == snap;
    Heap.SurvivorsAre(weaks, snap);
    AllAlive(snap);
  }

  lemma StrongRaised(s: Pool, user: nat, ride: Ride, job: nat)
    requires user !in s.rides && job < |s.jobs|
    ensures Strong(Board(s, user, ride), job) == Strong(s, job) + if job == ride.job then 1 else 0
  {
    var t := Board(s, user, ride);
    assert Riders(t, job) == Riders(s, job) + if job == ride.job then {user} else {};
  }

  lemma ViewRaised(s: Pool, user: nat, at: nat, idle: bool)
    requires Valid(s) && Distinct(s.registry) && user !in s.rides && at < |Live(s)|
    ensures var t := Board(s, user, Ride(Live(s)[at], idle));
      Valid(t) && Live(t) == Live(s) && View(t) == Raised(View(s), Some(at))
  {
    var alive := Live(s);
    var t := Board(s, user, Ride(alive[at], idle));
    PrunedAre(s, s.registry);
    PrunedDistinct(s, s.registry);
    assert alive[at] in alive;
    forall i | 0 <= i < |s.registry| ensures Strong(s, s.registry[i]) > 0 <==> Strong(t, s.registry[i]) > 0 {
      StrongRaised(s, user, Ride(alive[at], idle), s.registry[i]);
    }
    PrunedAlike(s, t, s.registry);
    forall i | 0 <= i < |alive| ensures View(t)[i] == Raised(View(s), Some(at))[i] {
      StrongRaised(s, user, Ride(alive[at], idle), alive[i]);
      assert alive[i] == alive[at] <==> i == at;
    }
  }

  lemma ViewAlive(s: Pool)
    requires Valid(s)
    ensures forall i :: 0 <= i < |View(s)| ==> View(s)[i].strong > 0
  {
    PrunedAre(s, s.registry);
    forall i | 0 <= i < |View(s)| ensures View(s)[i].strong > 0 {
      assert Live(s)[i] in Live(s);
    }
  }

  lemma ViewPruned(s: Pool, t: Pool)
    requires Valid(s) && t == s.(registry := Live(s))
    ensures Valid(t) && Live(t) == Live(s) && View(t) == View(s)
  {
    PrunedAre(s, s.registry);
    forall j: nat | j < |s.jobs| ensures Strong(t, j) == Strong(s, j) {
      assert Riders(t, j) == Riders(s, j);
    }
    forall i | 0 <= i < |Live(s)| ensures Strong(t, Live(s)[i]) > 0 {
      assert Live(s)[i] in Live(s);
    }
    AllStay(t, Live(s));
    assert View(t) == View(s);
  }

  lemma NothingRaised(snap: seq<Slot>)
    ensures Raised(snap, None) == snap
  {
  }

  // ---- the scans ------------------------------------------------------------

  lemma PeekViewed(s: Pool, user: nat)
    requires Valid(s) && Distinct(s.registry) && !Busy(s, user)
    ensures Valid(Peek(s, user)) && View(Peek(s, user)) == Raised(View(s), FirstIdle(View(s)))
    ensures IdlePick(s) ==
      match FirstIdle(View(s))
      case None => None
      case Some(at) => Some(Live(s)[at])
  {
    var t := s.(registry := Live(s));
    ViewPruned(s, t);
    match FirstIdle(View(s))
    case None => NothingRaised(View(s));
    case Some(at) =>
      PrunedDistinct(s, s.registry);
      ViewRaised(t, user, at, true);
  }

  /** A job that has just been made has one reference, and the others have as many as before. */
  lemma CreatedStrong(s: Pool, user: nat, t: Pool)
    requires Valid(s) && user in s.waiting && t == Step(s, Created(user))
    ensures Valid(t) && t.jobs == s.jobs + [JobState(CheckedOut(user), 0)] && t.registry == s.registry + [|s.jobs|]
    ensures Strong(t, |s.jobs|) == 1 && forall j: nat :: j < |s.jobs| ==> Strong(t, j) == Strong(s, j)
  {
    forall j: nat | j < |s.jobs| ensures Strong(t, j) == Strong(s, j) {
      assert Riders(t, j) == Riders(s, j);
    }
    assert Riders(t, |s.jobs|) == {};
  }

  /** It is the last to be seen. */
  lemma CreatedViewed(s: Pool, user: nat, t: Pool)
    requires Valid(s) && user in s.waiting && t == Step(s, Created(user))
    ensures Valid(t) && View(t) == View(s) + [Slot(1, 0)]
  {
    CreatedStrong(s, user, t);
    PrunedAlike(s, t, s.registry);
    assert t.registry[..|t.registry| - 1] == s.registry;
    assert Live(t) == Live(s) + [|s.jobs|];
    PrunedAre(s, s.registry);
    forall i | 0 <= i < |Live(s)| ensures View(t)[i] == View(s)[i] {
      assert Live(s)[i] in Live(s);
    }
  }

  lemma TrackViewed(weaks: seq<Heap.Job>, job: Heap.Job, view: seq<Slot>)
    requires job.strong == 1 && job.inFlight == 0 && Heap.Snapshot(Heap.Survivors(weaks)) == view
    ensures Heap.Snapshot(Heap.Survivors(weaks + [job])) == view + [Slot(1, 0)]
  {
    assert (weaks + [job])[..|weaks|] == weaks;
    var alive := Heap.Survivors(weaks);
    assert (alive + [job])[..|alive|] == alive;
  }

  /** In every reachable pool: tracking a job that was made for a waiting user is the pool's `Created`. */
  method Track(registry: Heap.Registry, job: Heap.Job, ghost events: seq<Event>, ghost user: nat)
    requires registry.Valid() && job !in registry.weaks && job.strong == 1 && job.inFlight == 0
    requires user in Run(events).waiting && Mirrors(Run(events), registry.weaks)
    modifies registry
    ensures registry.Valid() && Mirrors(Run(events + [Created(user)]), registry.weaks)
  {
    ghost var t := Run(events + [Created(user)]);
    RunOneMore(events, Created(user));
    CreatedViewed(Run(events), user, t);
    AddTracked(registry, job, View(Run(events)), View(t));
  }

  method AddTracked(registry: Heap.Registry, job: Heap.Job, ghost before: seq<Slot>, ghost later: seq<Slot>)
    requires registry.Valid() && job !in registry.weaks && job.strong == 1 && job.inFlight == 0
    requires Heap.Snapshot(Heap.Survivors(registry.weaks)) == before && later == before + [Slot(1, 0)]
    modifies registry
    ensures registry.Valid() && Heap.Snapshot(Heap.Survivors(registry.weaks)) == later
  {
    ghost var weaks := registry.weaks;
    registry.Track(job);
    TrackViewed(weaks, job, before);
  }

  /** In every reachable pool: scanning the registry for an idle job is the pool's `Peeks`. */
  method PeekIdle(registry: Heap.Registry, ghost events: seq<Event>, ghost user: nat) returns (at: Option<nat>)
    requires registry.Valid() && !Busy(Run(events), user) && Mirrors(Run(events), registry.weaks)
    modifies registry, registry.weaks
    ensures registry.Valid() && Mirrors(Run(events + [Peeks(user)]), registry.weaks)
    ensures at.None? <==> IdlePick(Run(events)).None?
    ensures at.Some? ==> at.value < |Live(Run(events))| && IdlePick(Run(events)) == Some(Live(Run(events))[at.value])
  {
    ghost var s := Run(events);
    at := registry.PeekIdle();
    RunKeepsDistinct(events);
    RunOneMore(events, Peeks(user));
    PeekViewed(s, user);
    ViewAlive(s);
    HeapRaised(registry.weaks, View(s), at);
  }

  /** The counters that the jobs have in `t` are the only difference. */
  predicate OnlyCounted(s: Pool, t: Pool) {
    && t.rides == s.rides && t.registry == s.registry && |t.jobs| == |s.jobs|
    && forall j :: 0 <= j < |s.jobs| ==> t.jobs[j].owner == s.jobs[j].owner
  }

  lemma CountedAlike(s: Pool, t: Pool)
    requires Valid(s) && OnlyCounted(s, t)
    ensures Valid(t) && Live(t) == Live(s)
  {
    assert forall j: nat :: Riders(t, j) == Riders(s, j);
    PrunedAlike(s, t, s.registry);
  }

  function Joined(s: Pool, user: nat, at: Option<nat>): seq<Event>
    requires Valid(s) && (at.Some? ==> at.value < |Live(s)|)
  {
    if at.Some? then [Joins(user, Live(s)[at.value])] else []
  }

  lemma JoinViewed(events: seq<Event>, user: nat, at: Option<nat>)
    requires !Busy(Run(events), user) && (at.Some? ==> at.value < |Live(Run(events))|)
    ensures View(Run(events + Joined(Run(events), user, at))) == Raised(View(Run(events)), at)
  {
    var s := Run(events);
    match at
    case None =>
      NothingRaised(View(s));
      assert events + [] == events;
    case Some(k) =>
      RunKeepsDistinct(events);
      PrunedAre(s, s.registry);
      assert Live(s)[k] in Live(s);
      RunOneMore(events, Joins(user, Live(s)[k]));
      ViewRaised(s, user, k, false);
  }

  /**
    In every reachable pool: picking the least busy unsaturated job, while
    `counted` moves the counters, is the pool's `Joins` of that job.
   */
  method PickUnsaturated(registry: Heap.Registry, size: nat, traffic: map<nat, u32>, ghost events: seq<Event>,
                         ghost counted: seq<Event>, ghost user: nat)
    returns (at: Option<nat>)
    requires registry.Valid() && !Busy(Run(events + counted), user) && Mirrors(Run(events), registry.weaks)
    requires OnlyCounted(Run(events), Run(events + counted))
    requires View(Run(events + counted)) == Recounted(View(Run(events)), traffic)
    modifies registry, registry.weaks
    ensures registry.Valid() && ScanFinds(View(Run(events)), View(Run(events + counted)), size, at)
    ensures at.Some? ==> at.value < |Live(Run(events + counted))|
    ensures Mirrors(Run(events + counted + Joined(Run(events + counted), user, at)), registry.weaks)
  {
    ghost var s, t := Run(events), Run(events + counted);
    at := registry.PickUnsaturated(size, traffic);
    CountedAlike(s, t);
    ViewAlive(t);
    HeapRaised(registry.weaks, View(t), at);
    assert at.Some? ==> at.value < |Live(t)| by {
      if at.Some? {
        MovingScan(View(s), View(t), size, at);
      }
    }
    JoinViewed(events + counted, user, at);
  }
}
