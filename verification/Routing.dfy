/** What the routing scans are to find in a snapshot of the registered jobs. */
module Routing {
  import opened Wrappers
  import opened Json
  import opened Counter

  /** A registered job as a scan sees it: its strong references and its outstanding-request counter. */
  datatype Slot = Slot(strong: nat, count: u32)

  const SATURATION_THRESHOLD: u32 := 32

  /** Nobody but its owner has the job, and nothing is outstanding on it. */
  predicate LooksIdle(x: Slot) {
    x.strong == 1 && x.count == 0
  }

  /** The job is alive and not marked as reserved. */
  predicate Routable(x: Slot) {
    x.strong > 0 && x.count != SENTINEL
  }

  function FirstIdle(snap: seq<Slot>): (r: Option<nat>)
    ensures r.Some? ==> r.value < |snap| && LooksIdle(snap[r.value]) && forall i :: 0 <= i < r.value ==>
      !LooksIdle(snap[i])
    ensures r.None? ==> forall i :: 0 <= i < |snap| ==> !LooksIdle(snap[i])
  {
    if snap == [] then None
    else if LooksIdle(snap[0]) then Some(0)
    else
      match FirstIdle(snap[1..])
      case None => None
      case Some(i) => Some(i + 1)
  }

  /** Fewer outstanding requests, or as many and registered earlier. */
  predicate Before(snap: seq<Slot>, i: nat, j: nat)
    requires i < |snap| && j < |snap|
  {
    snap[i].count < snap[j].count || (snap[i].count == snap[j].count && i < j)
  }

  /** `picks` are the `limit` best routable jobs, best first. */
  ghost predicate TopK(snap: seq<Slot>, limit: nat, picks: seq<nat>) {
    && |picks| <= limit
    && (forall x :: 0 <= x < |picks| ==> picks[x] < |snap| && Routable(snap[picks[x]]))
    && (forall x, y :: 0 <= x < y < |picks| ==> Before(snap, picks[x], picks[y]))
    && (forall i :: 0 <= i < |snap| && Routable(snap[i]) && i !in picks ==>
          |picks| == limit && forall x :: 0 <= x < |picks| ==> Before(snap, picks[x], i))
  }

  lemma PickedOnce(snap: seq<Slot>, limit: nat, a: seq<nat>, n: nat)
    requires TopK(snap, limit, a) && n < |a|
    ensures a[n] !in a[..n]
  {
    forall x | 0 <= x < n ensures a[..n][x] != a[n] {
      assert Before(snap, a[x], a[n]);
    }
  }

  lemma AgreeNext(snap: seq<Slot>, limit: nat, a: seq<nat>, b: seq<nat>, n: nat)
    requires TopK(snap, limit, a) && TopK(snap, limit, b)
    requires n < |a| && n < |b| && a[..n] == b[..n]
    ensures !Before(snap, a[n], b[n])
  {
    PickedOnce(snap, limit, a, n);
    if a[n] in b {
      var x :| 0 <= x < |b| && b[x] == a[n];
      forall y | 0 <= y < n ensures b[y] != a[n] {
        assert b[y] == b[..n][y] == a[..n][y];
      }
      if x > n {
        assert Before(snap, b[n], b[x]);
      }
    } else {
      assert Before(snap, b[n], a[n]);
    }
  }

  lemma NotLonger(snap: seq<Slot>, limit: nat, a: seq<nat>, b: seq<nat>)
    requires TopK(snap, limit, a) && TopK(snap, limit, b)
    requires |a| <= |b| && a == b[..|a|]
    ensures a == b
  {
    if |a| < |b| {
      PickedOnce(snap, limit, b, |a|);
      assert false;
    }
  }

  /** There is only one such list, so the scan's result is determined. */
  lemma TopKUnique(snap: seq<Slot>, limit: nat, a: seq<nat>, b: seq<nat>)
    requires TopK(snap, limit, a) && TopK(snap, limit, b)
    ensures a == b
  {
    var n := 0;
    while n < |a| && n < |b|
      invariant n <= |a| && n <= |b|
      invariant a[..n] == b[..n]
    {
      AgreeNext(snap, limit, a, b, n);
      AgreeNext(snap, limit, b, a, n);
      assert a[n] == b[n];
      assert a[..n + 1] == a[..n] + [a[n]] && b[..n + 1] == b[..n] + [b[n]];
      n := n + 1;
    }
    if |a| < |b| {
      assert a[..n] == a;
      NotLonger(snap, limit, a, b);
    } else if |b| < |a| {
      assert b[..n] == b;
      NotLonger(snap, limit, b, a);
    } else {
      assert a[..n] == a && b[..n] == b;
    }
  }

  /** `best` has the fewest outstanding requests of all routable jobs, and is the first registered with that many. */
  ghost predicate IsBest(snap: seq<Slot>, best: nat) {
    && best < |snap| && Routable(snap[best])
    && forall i :: 0 <= i < |snap| && Routable(snap[i]) && i != best ==> Before(snap, best, i)
  }

  function Limit(size: nat): nat {
    if size < 8 then size else 8
  }

  /** What `pick_unsaturated` keeps of a candidate list: the first below the threshold. */
  function FirstUnsaturated(snap: seq<Slot>, candidates: seq<nat>): (r: Option<nat>)
    requires forall x :: 0 <= x < |candidates| ==> candidates[x] < |snap|
    ensures r.Some? ==> r.value < |snap|
  {
    if candidates == [] then None
    else if snap[candidates[0]].count < SATURATION_THRESHOLD then Some(candidates[0])
    else FirstUnsaturated(snap, candidates[1..])
  }

  lemma {:induction false} SaturatedFromTheFirst(snap: seq<Slot>, candidates: seq<nat>)
    requires forall x :: 0 <= x < |candidates| ==>
      candidates[x] < |snap| && snap[candidates[x]].count >= SATURATION_THRESHOLD
    ensures FirstUnsaturated(snap, candidates) == None
  {
    if candidates == [] {
    } else {
      SaturatedFromTheFirst(snap, candidates[1..]);
    }
  }

  lemma FirstPickIsBest(snap: seq<Slot>, limit: nat, picks: seq<nat>)
    requires TopK(snap, limit, picks) && picks != []
    ensures IsBest(snap, picks[0])
  {
    forall i | 0 <= i < |snap| && Routable(snap[i]) && i != picks[0] ensures Before(snap, picks[0], i) {
      if i in picks {
        var x :| 0 <= x < |picks| && picks[x] == i;
        assert Before(snap, picks[0], picks[x]);
      }
    }
  }

  /**
    Looking at no more than eight candidates loses nothing: for a pool of at
    least one job, the scan finds the first registered job of globally minimal
    count exactly when that count is below the threshold, and otherwise nothing.
   */
  lemma PickIsGlobalBest(snap: seq<Slot>, size: nat, picks: seq<nat>)
    requires size >= 1 && TopK(snap, Limit(size), picks)
    ensures forall best: nat ::
      FirstUnsaturated(snap, picks) == Some(best) <==> IsBest(snap, best) && snap[best].count < 32
    ensures FirstUnsaturated(snap, picks) == None <==>
      forall i :: 0 <= i < |snap| && snap[i].strong > 0 && snap[i].count != 0xFFFF_FFFF ==> snap[i].count >= 32
  {
    if picks != [] {
      FirstPickIsBest(snap, Limit(size), picks);
      forall best: nat | IsBest(snap, best) ensures best == picks[0] {
        assert Before(snap, best, picks[0]) <==> best != picks[0];
      }
      if snap[picks[0]].count >= SATURATION_THRESHOLD {
        forall x | 0 <= x < |picks| ensures snap[picks[x]].count >= SATURATION_THRESHOLD {
          if x > 0 {
            assert Before(snap, picks[0], picks[x]);
          }
        }
        SaturatedFromTheFirst(snap, picks);
      }
    }
  }

  /** An empty pool routes nowhere by the scan, however many jobs routed calls still keep alive. */
  lemma EmptyPoolPicksNothing(snap: seq<Slot>, picks: seq<nat>)
    requires TopK(snap, Limit(0), picks)
    ensures FirstUnsaturated(snap, picks) == None
  {
  }

  // ---- the three tiers ------------------------------------------------------

  /**
    Where a call runs: on an idle job, along with others on the least busy one, or on
    whatever the fair queue yields.
   */
  datatype Route = ViaIdle(at: nat) | ViaScan(at: nat) | ViaQueue

  function Best(snap: seq<Slot>): (r: Option<nat>)
    ensures r.Some? ==> IsBest(snap, r.value)
    ensures r.None? ==> forall i :: 0 <= i < |snap| ==> !Routable(snap[i])
  {
    if snap == [] then None
    else
      var n := |snap| - 1;
      var init := Best(snap[..n]);
      if !Routable(snap[n]) then init
      else if init.Some? && snap[init.value].count <= snap[n].count then init
      else Some(n)
  }

  /** The globally best job, unless it is saturated or the pool is empty. */
  function Unsaturated(snap: seq<Slot>, size: nat): Option<nat> {
    match Best(snap)
    case Some(b) => if size > 0 && snap[b].count < SATURATION_THRESHOLD then Some(b) else None
    case None => None
  }

  function RouteOf(snap: seq<Slot>, size: nat): Route {
    match FirstIdle(snap)
    case Some(i) => ViaIdle(i)
    case None =>
      match Unsaturated(snap, size)
      case Some(b) => ViaScan(b)
      case None => ViaQueue
  }

  /** The candidate scan of any size comes down to the globally best job. */
  lemma ScanFindsBest(snap: seq<Slot>, size: nat, picks: seq<nat>)
    requires TopK(snap, Limit(size), picks)
    ensures FirstUnsaturated(snap, picks) == Unsaturated(snap, size)
  {
    if size == 0 {
      EmptyPoolPicksNothing(snap, picks);
    } else {
      PickIsGlobalBest(snap, size, picks);
    }
  }

  // ---- scans while counters move --------------------------------------------

  /** The snapshot once traffic has set some of the counters anew. */
  function Recounted(snap: seq<Slot>, counts: map<nat, u32>): (r: seq<Slot>)
    ensures |r| == |snap|
    ensures forall i: nat :: i < |snap| ==>
      r[i].strong == snap[i].strong && r[i].count == if i in counts then counts[i] else snap[i].count
  {
    if snap == [] then []
    else
      var n := |snap| - 1;
      Recounted(snap[..n], counts) + [Slot(snap[n].strong, if n in counts then counts[n] else snap[n].count)]
  }

  lemma {:induction false} NothingRecounted(snap: seq<Slot>)
    ensures Recounted(snap, map[]) == snap
  {
  }

  /** Candidates ranked in `snap`, filtered by their counters as they are in `later`. */
  ghost predicate ScanFinds(snap: seq<Slot>, later: seq<Slot>, size: nat, r: Option<nat>)
    requires |later| == |snap|
  {
    exists picks :: TopK(snap, Limit(size), picks) && r == FirstUnsaturated(later, picks)
  }

  /** When no counter moves, that is the globally best job. */
  lemma FrozenScan(snap: seq<Slot>, size: nat, r: Option<nat>)
    requires ScanFinds(snap, snap, size, r)
    ensures r == Unsaturated(snap, size)
  {
    var picks :| TopK(snap, Limit(size), picks) && r == FirstUnsaturated(snap, picks);
    ScanFindsBest(snap, size, picks);
  }

  lemma {:induction false} UnsaturatedPick(snap: seq<Slot>, candidates: seq<nat>)
    requires forall x :: 0 <= x < |candidates| ==> candidates[x] < |snap|
    ensures FirstUnsaturated(snap, candidates).Some? ==>
      var b := FirstUnsaturated(snap, candidates).value;
      b in candidates && snap[b].count < SATURATION_THRESHOLD
  {
    if candidates == [] {
    } else {
      UnsaturatedPick(snap, candidates[1..]);
    }
  }

  /** However counters move between ranking and filtering, a reserved or saturated job is never chosen. */
  lemma MovingScan(snap: seq<Slot>, later: seq<Slot>, size: nat, r: Option<nat>)
    requires |later| == |snap| && ScanFinds(snap, later, size, r) && r.Some?
    ensures r.value < |snap| && snap[r.value].strong > 0 && snap[r.value].count != 0xFFFF_FFFF
    ensures later[r.value].count < 32
  {
    var picks :| TopK(snap, Limit(size), picks) && r == FirstUnsaturated(later, picks);
    UnsaturatedPick(later, picks);
  }

  // ---- the tiers while everything moves -------------------------------------

  /** What is left of a snapshot when the dead entries go. */
  function Alive(snap: seq<Slot>): (r: seq<Slot>)
    ensures forall i :: 0 <= i < |r| ==> r[i].strong > 0
  {
    if snap == [] then []
    else
      var rest := Alive(snap[..|snap| - 1]);
      if snap[|snap| - 1].strong > 0 then rest + [snap[|snap| - 1]] else rest
  }

  lemma {:induction false} AllAlive(snap: seq<Slot>)
    requires forall i :: 0 <= i < |snap| ==> snap[i].strong > 0
    ensures Alive(snap) == snap
  {
    if snap == [] {
    } else {
      AllAlive(snap[..|snap| - 1]);
    }
  }

  /** The snapshot once other callers have changed some of the jobs. */
  function Changed(snap: seq<Slot>, changes: map<nat, Slot>): (r: seq<Slot>)
    ensures |r| == |snap|
    ensures forall i: nat :: i < |snap| ==> r[i] == if i in changes then changes[i] else snap[i]
  {
    if snap == [] then []
    else
      var n := |snap| - 1;
      Changed(snap[..n], changes) + [if n in changes then changes[n] else snap[n]]
  }

  lemma NothingChanged(snap: seq<Slot>)
    ensures Changed(snap, map[]) == snap
  {
  }

  function Scanned(route: Route): Option<nat> {
    if route.ViaScan? then Some(route.at) else None
  }

  /**
    How a call is routed whose idle scan sees `first`, whose ranking sees `second` and whose
    filter sees `later`.
   */
  ghost predicate RouteFinds(first: seq<Slot>, second: seq<Slot>, later: seq<Slot>, size: nat, route: Route)
    requires |later| == |second|
  {
    match FirstIdle(first)
    case Some(i) => route == ViaIdle(i)
    case None => !route.ViaIdle? && ScanFinds(second, later, size, Scanned(route))
  }

  /** When nothing moves, that is the one route of the snapshot. */
  lemma FrozenRoute(snap: seq<Slot>, size: nat, route: Route)
    requires forall i :: 0 <= i < |snap| ==> snap[i].strong > 0
    requires var second := Alive(Changed(snap, map[]));
      RouteFinds(snap, second, Recounted(second, map[]), size, route)
    ensures route == RouteOf(snap, size)
  {
    NothingChanged(snap);
    AllAlive(snap);
    NothingRecounted(snap);
    if FirstIdle(snap).None? {
      FrozenScan(snap, size, Scanned(route));
    }
  }

  /** A job the call passes over: alive and not reserved when ranked, not saturated when filtered. */
  predicate HasRoom(second: seq<Slot>, later: seq<Slot>, i: nat)
    requires |later| == |second|
  {
    i < |second| && Routable(second[i]) && later[i].count < SATURATION_THRESHOLD
  }

  /** Candidates that were ranked before `i` and have become saturated since. */
  predicate Displaced(second: seq<Slot>, later: seq<Slot>, picks: seq<nat>, i: nat)
    requires |later| == |second| && i < |second|
  {
    && (forall x, y :: 0 <= x < y < |picks| ==> picks[x] != picks[y])
    && forall x :: 0 <= x < |picks| ==>
         picks[x] < |second| && Before(second, picks[x], i) && later[picks[x]].count >= SATURATION_THRESHOLD
  }

  lemma {:induction false} NoneUnsaturated(snap: seq<Slot>, candidates: seq<nat>, i: nat)
    requires forall x :: 0 <= x < |candidates| ==> candidates[x] < |snap|
    requires FirstUnsaturated(snap, candidates) == None && i in candidates
    ensures snap[i].count >= SATURATION_THRESHOLD
  {
    if i != candidates[0] {
      NoneUnsaturated(snap, candidates[1..], i);
    }
  }

  lemma QueuedPast(second: seq<Slot>, later: seq<Slot>, size: nat, i: nat) returns (picks: seq<nat>)
    requires |later| == |second| && ScanFinds(second, later, size, None) && HasRoom(second, later, i)
    ensures |picks| == Limit(size) && Displaced(second, later, picks, i)
  {
    picks :| TopK(second, Limit(size), picks) && FirstUnsaturated(later, picks) == None;
    forall x | 0 <= x < |picks| ensures later[picks[x]].count >= SATURATION_THRESHOLD {
      NoneUnsaturated(later, picks, picks[x]);
    }
    assert i !in picks;
    forall x, y | 0 <= x < y < |picks| ensures picks[x] != picks[y] {
      assert Before(second, picks[x], picks[y]);
    }
  }

  /**
    What a route still guarantees when references and counters move between
    the steps: the idle tier is exact for what it saw; a scanned job was
    routable when ranked and is unsaturated when filtered; and a call queues past a job
    with room only if a whole list of candidates that ranked before it have
    become saturated meanwhile.
   */
  lemma MovingRoute(first: seq<Slot>, second: seq<Slot>, later: seq<Slot>, size: nat, route: Route)
    requires |later| == |second| && RouteFinds(first, second, later, size, route)
    ensures route.ViaIdle? <==> exists i :: 0 <= i < |first| && LooksIdle(first[i])
    ensures route.ViaIdle? ==> route.at < |first| && LooksIdle(first[route.at])
    ensures route.ViaScan? ==> HasRoom(second, later, route.at)
    ensures route.ViaQueue? ==> forall i: nat :: HasRoom(second, later, i) ==>
      exists picks :: |picks| == (if size < 8 then size else 8) && Displaced(second, later, picks, i)
  {
    if route.ViaScan? {
      MovingScan(second, later, size, Scanned(route));
    } else if route.ViaQueue? {
      forall i: nat | HasRoom(second, later, i)
        ensures exists picks :: |picks| == (if size < 8 then size else 8) && Displaced(second, later, picks, i)
      {
        var picks := QueuedPast(second, later, size, i);
      }
    }
  }
}
