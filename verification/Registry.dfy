/** The routing registry: weak references to every job the pool has made, scanned and pruned in place. */
module Registry {
  import opened Wrappers
  import opened Json
  import opened Counter
  import opened Routing

  /** A job as the registry needs it. `strong` counts its strong references. */
  class Job {
    var strong: nat
    var inFlight: u32

    constructor ()
      ensures strong == 1 && inFlight == 0
    {
      strong, inFlight := 1, 0;
    }

    /** Upgrading a weak reference succeeds while somebody still holds the job. */
    method Upgrade() returns (ok: bool)
      modifies this`strong
      ensures ok == (old(strong) > 0)
      ensures strong == if ok then old(strong) + 1 else 0
    {
      ok := strong > 0;
      if ok {
        strong := strong + 1;
      }
    }

    method Release()
      requires strong > 0
      modifies this`strong
      ensures strong == old(strong) - 1
    {
      strong := strong - 1;
    }
  }

  function Snapshot(jobs: seq<Job>): (snap: seq<Slot>)
    reads jobs
    ensures |snap| == |jobs|
    ensures forall i :: 0 <= i < |jobs| ==> snap[i] == Slot(jobs[i].strong, jobs[i].inFlight)
  {
    if jobs == [] then [] else Snapshot(jobs[..|jobs| - 1]) + [Slot(jobs[|jobs| - 1].strong, jobs[|jobs| - 1].inFlight)]
  }

  /** The jobs somebody still holds, in order. */
  function Survivors(jobs: seq<Job>): (alive: seq<Job>)
    reads jobs
    ensures forall i :: 0 <= i < |alive| ==> alive[i] in jobs && alive[i].strong > 0
    ensures forall i :: 0 <= i < |jobs| && jobs[i].strong > 0 ==> jobs[i] in alive
  {
    if jobs == [] then []
    else
      var rest := Survivors(jobs[..|jobs| - 1]);
      if jobs[|jobs| - 1].strong > 0 then rest + [jobs[|jobs| - 1]] else rest
  }

  predicate Distinct(jobs: seq<Job>) {
    forall i, j :: 0 <= i < j < |jobs| ==> jobs[i] != jobs[j]
  }

  lemma {:induction false} SurvivorsDistinct(jobs: seq<Job>)
    requires Distinct(jobs)
    ensures Distinct(Survivors(jobs))
  {
    if jobs == [] {
    } else {
      SurvivorsDistinct(jobs[..|jobs| - 1]);
    }
  }

  /** A candidate of the scan: its count when it was read, and its place in the registry. */
  datatype Candidate = Candidate(count: u32, at: nat)

  predicate Outranks(a: Candidate, b: Candidate) {
    a.count < b.count || (a.count == b.count && a.at < b.at)
  }

  predicate Ranked(c: seq<Candidate>) {
    forall x, y :: 0 <= x < y < |c| ==> Outranks(c[x], c[y])
  }

  lemma InsertRanked(c: seq<Candidate>, k: nat, x: Candidate)
    requires Ranked(c) && k <= |c|
    requires forall m :: 0 <= m < k ==> Outranks(c[m], x)
    requires forall m :: k <= m < |c| ==> Outranks(x, c[m])
    ensures Ranked(c[..k] + [x] + c[k..])
    ensures forall y :: y in c[..k] + [x] + c[k..] <==> y in c || y == x
  {
    assert c == c[..k] + c[k..];
  }

  /** Where a stable sort puts a candidate that comes after all of `c`: behind every count that is not larger. */
  method Insert(c: seq<Candidate>, x: Candidate) returns (r: seq<Candidate>)
    requires Ranked(c)
    requires forall k :: 0 <= k < |c| ==> c[k].at < x.at
    ensures Ranked(r) && |r| == |c| + 1
    ensures forall y :: y in r <==> y in c || y == x
  {
    var k := |c|;
    while k > 0 && c[k - 1].count > x.count
      invariant 0 <= k <= |c|
      invariant forall m :: k <= m < |c| ==> c[m].count > x.count
    {
      k := k - 1;
    }
    forall m | 0 <= m < k ensures Outranks(c[m], x) {
      assert m == k - 1 || Outranks(c[m], c[k - 1]);
    }
    InsertRanked(c, k, x);
    r := c[..k] + [x] + c[k..];
  }

  /** The stable sort by count. */
  method SortByCount(c: seq<Candidate>) returns (r: seq<Candidate>)
    requires forall x, y :: 0 <= x < y < |c| ==> c[x].at < c[y].at
    ensures Ranked(r) && |r| == |c|
    ensures forall y :: y in r <==> y in c
  {
    r := [];
    for i := 0 to |c|
      invariant Ranked(r) && |r| == i
      invariant forall y :: y in r <==> y in c[..i]
    {
      forall k | 0 <= k < |r| ensures r[k].at < c[i].at {
        assert r[k] in c[..i];
      }
      r := Insert(r, c[i]);
      assert c[..i + 1] == c[..i] + [c[i]];
    }
    assert c[..|c|] == c;
  }

  /** The jobs are as in `snap`, but for one more reference that callers hold to each of the places in `held`. */
  predicate Shows(jobs: seq<Job>, snap: seq<Slot>, held: set<nat>)
    reads jobs
  {
    && |jobs| == |snap|
    && forall i :: 0 <= i < |jobs| ==>
         jobs[i].strong == snap[i].strong + (if i in held then 1 else 0) && jobs[i].inFlight == snap[i].count
  }

  function Chosen(r: Option<nat>): set<nat> {
    if r.Some? then {r.value} else {}
  }

  /** The scan for an idle job. Every reference it takes is given back, except the one it returns. */
  method ScanIdle(jobs: seq<Job>, ghost before: seq<Slot>) returns (r: Option<nat>)
    requires Distinct(jobs) && Shows(jobs, before, {})
    modifies jobs
    ensures r == FirstIdle(before)
    ensures r.None? ==> Shows(jobs, before, {})
    ensures Shows(jobs, before, Chosen(r))
  {
    for i := 0 to |jobs|
      invariant Shows(jobs, before, {})
      invariant forall k :: 0 <= k < i ==> !LooksIdle(before[k])
    {
      var job := jobs[i];
      var ok := job.Upgrade();
      if ok {
        if job.inFlight != SENTINEL && job.inFlight == 0 && job.strong == 2 {
          return Some(i);
        }
        job.Release();
      }
    }
    return None;
  }

  function Places(picks: seq<nat>): set<nat> {
    set p | p in picks
  }

  method Take(jobs: seq<Job>, ghost before: seq<Slot>, ghost held: set<nat>, at: nat)
    requires Distinct(jobs) && Shows(jobs, before, held)
    requires at < |jobs| && at !in held && before[at].strong > 0
    modifies jobs
    ensures Shows(jobs, before, held + {at})
  {
    var ok := jobs[at].Upgrade();
  }

  method GiveBack(jobs: seq<Job>, ghost before: seq<Slot>, ghost held: set<nat>, at: nat)
    requires Distinct(jobs) && Shows(jobs, before, held)
    requires at < |jobs| && at in held
    modifies jobs
    ensures Shows(jobs, before, held - {at})
  {
    jobs[at].Release();
  }

  method HoldAll(jobs: seq<Job>, ghost before: seq<Slot>, picks: seq<nat>)
    requires Distinct(jobs) && Shows(jobs, before, {})
    requires forall x :: 0 <= x < |picks| ==> picks[x] < |jobs| && before[picks[x]].strong > 0
    requires forall x, y :: 0 <= x < y < |picks| ==> picks[x] != picks[y]
    modifies jobs
    ensures Shows(jobs, before, Places(picks))
  {
    ghost var held: set<nat> := {};
    for x := 0 to |picks|
      invariant held == Places(picks[..x])
      invariant Shows(jobs, before, held)
    {
      assert picks[..x + 1] == picks[..x] + [picks[x]];
      Take(jobs, before, held, picks[x]);
      held := held + {picks[x]};
    }
    assert picks[..|picks|] == picks;
  }

  /** The routable jobs in order, each with the count it showed. */
  method Gather(jobs: seq<Job>, ghost before: seq<Slot>) returns (live: seq<Candidate>)
    requires Distinct(jobs) && Shows(jobs, before, {})
    modifies jobs
    ensures Shows(jobs, before, {})
    ensures forall x, y :: 0 <= x < y < |live| ==> live[x].at < live[y].at
    ensures forall c :: c in live <==> c.at < |before| && Routable(before[c.at]) && c.count == before[c.at].count
  {
    live := [];
    for i := 0 to |jobs|
      invariant Shows(jobs, before, {})
      invariant forall x, y :: 0 <= x < y < |live| ==> live[x].at < live[y].at
      invariant forall c :: c in live <==> c.at < i && Routable(before[c.at]) && c.count == before[c.at].count
    {
      var job := jobs[i];
      var ok := job.Upgrade();
      if ok {
        if job.inFlight != SENTINEL {
          live := live + [Candidate(job.inFlight, i)];
        }
        job.Release();
      }
    }
  }

  lemma RankedIsTopK(snap: seq<Slot>, limit: nat, ranked: seq<Candidate>, picks: seq<nat>)
    requires Ranked(ranked)
    requires forall c :: c in ranked <==> c.at < |snap| && Routable(snap[c.at]) && c.count == snap[c.at].count
    requires |picks| == (if limit < |ranked| then limit else |ranked|)
    requires forall x :: 0 <= x < |picks| ==> picks[x] == ranked[x].at
    ensures TopK(snap, limit, picks)
  {
    forall x | 0 <= x < |ranked|
      ensures ranked[x].at < |snap| && Routable(snap[ranked[x].at]) && ranked[x].count == snap[ranked[x].at].count
    {
      assert ranked[x] in ranked;
    }
    forall i | 0 <= i < |snap| && Routable(snap[i]) && i !in picks
      ensures |picks| == limit && forall x :: 0 <= x < |picks| ==> Before(snap, picks[x], i)
    {
      assert Candidate(snap[i].count, i) in ranked;
      var z :| 0 <= z < |ranked| && ranked[z] == Candidate(snap[i].count, i);
      assert z >= |picks|;
    }
  }

  method FindUnsaturated(jobs: seq<Job>, ghost before: seq<Slot>, picks: seq<nat>) returns (r: Option<nat>)
    requires |jobs| == |before| && forall i :: 0 <= i < |jobs| ==> jobs[i].inFlight == before[i].count
    requires forall x :: 0 <= x < |picks| ==> picks[x] < |jobs|
    ensures r == FirstUnsaturated(before, picks)
    ensures r.Some? ==> r.value in picks
  {
    for x := 0 to |picks|
      invariant FirstUnsaturated(before, picks) == FirstUnsaturated(before, picks[x..])
    {
      assert picks[x..][1..] == picks[x + 1..];
      if jobs[picks[x]].inFlight < SATURATION_THRESHOLD {
        return Some(picks[x]);
      }
    }
    return None;
  }

  /** Drops the references to the candidates that were not chosen. */
  method GiveBackOthers(jobs: seq<Job>, ghost before: seq<Slot>, picks: seq<nat>, chosen: Option<nat>)
    requires Distinct(jobs) && Shows(jobs, before, Places(picks))
    requires forall x :: 0 <= x < |picks| ==> picks[x] < |jobs|
    requires forall x, y :: 0 <= x < y < |picks| ==> picks[x] != picks[y]
    requires chosen.Some? ==> chosen.value in picks
    modifies jobs
    ensures Shows(jobs, before, Chosen(chosen))
  {
    ghost var kept := Chosen(chosen);
    ghost var held := Places(picks);
    assert picks[0..] == picks;
    assert held == kept + Places(picks[0..]);
    for x := 0 to |picks|
      invariant held == kept + Places(picks[x..])
      invariant Shows(jobs, before, held)
    {
      PlacesOf(picks, x);
      if chosen != Some(picks[x]) {
        GiveBack(jobs, before, held, picks[x]);
        held := held - {picks[x]};
      }
    }
  }

  lemma PlacesOf(picks: seq<nat>, x: nat)
    requires x < |picks|
    requires forall y, z :: 0 <= y < z < |picks| ==> picks[y] != picks[z]
    ensures picks[x..] == [picks[x]] + picks[x + 1..]
    ensures Places(picks[x..]) == {picks[x]} + Places(picks[x + 1..])
    ensures picks[x] !in Places(picks[x + 1..]) && picks[x] !in picks[..x]
  {
  }

  /** The jobs that are alive in `snap`. */
  function Kept(jobs: seq<Job>, snap: seq<Slot>): (kept: seq<Job>)
    requires |snap| == |jobs|
  {
    if jobs == [] then []
    else
      var n := |jobs| - 1;
      var rest := Kept(jobs[..n], snap[..n]);
      if snap[n].strong > 0 then rest + [jobs[n]] else rest
  }

  lemma SnapshotIs(jobs: seq<Job>, snap: seq<Slot>)
    requires Shows(jobs, snap, {})
    ensures Snapshot(jobs) == snap
  {
  }

  lemma {:induction false} SurvivorsAre(jobs: seq<Job>, snap: seq<Slot>)
    requires snap == Snapshot(jobs)
    ensures Survivors(jobs) == Kept(jobs, snap) && Snapshot(Survivors(jobs)) == Alive(snap)
  {
    if jobs == [] {
    } else {
      var n := |jobs| - 1;
      SurvivorsAre(jobs[..n], snap[..n]);
      assert snap[..n] == Snapshot(jobs[..n]);
    }
  }

  /** The best `limit` of the jobs, held for the caller. */
  method Rank(jobs: seq<Job>, ghost before: seq<Slot>, limit: nat) returns (picks: seq<nat>)
    requires Distinct(jobs) && Shows(jobs, before, {})
    modifies jobs
    ensures TopK(before, limit, picks)
    ensures Shows(jobs, before, Places(picks))
  {
    var live := Gather(jobs, before);
    var ranked := SortByCount(live);
    var n := if limit < |ranked| then limit else |ranked|;
    picks := seq(n, x requires 0 <= x < n => ranked[x].at);
    RankedIsTopK(before, limit, ranked, picks);
    HoldAll(jobs, before, picks);
  }

  /** Traffic on the jobs, meanwhile. */
  method Recount(jobs: seq<Job>, ghost before: seq<Slot>, ghost later: seq<Slot>, ghost held: set<nat>,
    counts: map<nat, u32>)
    requires Distinct(jobs) && Shows(jobs, before, held) && later == Recounted(before, counts)
    modifies jobs
    ensures Shows(jobs, later, held)
  {
    for i := 0 to |jobs|
      invariant forall k :: 0 <= k < |jobs| ==> jobs[k].strong == before[k].strong + (if k in held then 1 else 0)
      invariant forall k :: 0 <= k < i ==> jobs[k].inFlight == later[k].count
      invariant forall k :: i <= k < |jobs| ==> jobs[k].inFlight == before[k].count
    {
      if i in counts {
        jobs[i].inFlight := counts[i];
      }
    }
  }

  /** Changes that other callers make to the jobs. */
  method Change(jobs: seq<Job>, ghost before: seq<Slot>, ghost later: seq<Slot>, changes: map<nat, Slot>)
    requires Distinct(jobs) && Shows(jobs, before, {}) && later == Changed(before, changes)
    modifies jobs
    ensures Shows(jobs, later, {})
  {
    for i := 0 to |jobs|
      invariant forall k :: 0 <= k < i ==> jobs[k].strong == later[k].strong && jobs[k].inFlight == later[k].count
      invariant forall k :: i <= k < |jobs| ==> jobs[k].strong == before[k].strong
      invariant forall k :: i <= k < |jobs| ==> jobs[k].inFlight == before[k].count
    {
      if i in changes {
        jobs[i].strong, jobs[i].inFlight := changes[i].strong, changes[i].count;
      }
    }
  }

  method Choice(jobs: seq<Job>, ghost before: seq<Slot>, ghost later: seq<Slot>, ghost size: nat, picks: seq<nat>)
    returns (r: Option<nat>)
    requires Distinct(jobs) && Shows(jobs, later, Places(picks))
    requires |later| == |before| && TopK(before, Limit(size), picks)
    modifies jobs
    ensures ScanFinds(before, later, size, r)
    ensures Shows(jobs, later, Chosen(r))
  {
    r := FindUnsaturated(jobs, later, picks);
    GiveBackOthers(jobs, later, picks, r);
  }

  /** What happens to the candidates after the scan: traffic, and then the choice. */
  method Filter(jobs: seq<Job>, ghost before: seq<Slot>, ghost later: seq<Slot>, ghost size: nat, picks: seq<nat>,
    traffic: map<nat, u32>)
    returns (r: Option<nat>)
    requires Distinct(jobs) && Shows(jobs, before, Places(picks))
    requires later == Recounted(before, traffic) && TopK(before, Limit(size), picks)
    modifies jobs
    ensures ScanFinds(before, later, size, r)
    ensures Shows(jobs, later, Chosen(r))
  {
    Recount(jobs, before, later, Places(picks), traffic);
    r := Choice(jobs, before, later, size, picks);
  }

  class Registry {
    var weaks: seq<Job>

    ghost predicate Valid()
      reads this
    {
      Distinct(weaks)
    }

    constructor ()
      ensures Valid() && weaks == []
    {
      weaks := [];
    }

    /** Each job is tracked when it is made, so that the registry stays free of repetition. */
    method Track(job: Job)
      modifies this
      ensures weaks == old(weaks) + [job]
      ensures old(Valid()) && job !in old(weaks) ==> Valid()
    {
      weaks := weaks + [job];
    }

    /** Forgets the jobs nobody holds. */
    method Retain()
      requires Valid()
      modifies this
      ensures Valid() && weaks == old(Survivors(weaks))
    {
      var kept := [];
      for i := 0 to |weaks|
        invariant weaks == old(weaks)
        invariant kept == Survivors(weaks[..i])
      {
        assert weaks[..i + 1][..i] == weaks[..i];
        if weaks[i].strong > 0 {
          kept := kept + [weaks[i]];
        }
      }
      assert weaks[..|weaks|] == weaks;
      SurvivorsDistinct(weaks);
      weaks := kept;
    }

    /** The place of the first idle job, held for the caller from now on. Dead entries go; nothing else changes. */
    method PeekIdle() returns (r: Option<nat>)
      requires Valid()
      modifies this, weaks
      ensures Valid() && weaks == old(Survivors(weaks))
      ensures r == old(FirstIdle(Snapshot(Survivors(weaks))))
      ensures Shows(weaks, old(Snapshot(Survivors(weaks))), Chosen(r))
      ensures r.None? ==> Shows(weaks, old(Snapshot(Survivors(weaks))), {})
    {
      ghost var before := Snapshot(Survivors(weaks));
      Retain();
      r := ScanIdle(weaks, before);
    }

    /** The places of up to `limit` routable jobs by outstanding requests, each held for the caller from now on. */
    method LeastBusy(limit: nat) returns (picks: seq<nat>)
      requires Valid()
      modifies this, weaks
      ensures Valid() && weaks == old(Survivors(weaks))
      ensures TopK(old(Snapshot(Survivors(weaks))), limit, picks)
      ensures Shows(weaks, old(Snapshot(Survivors(weaks))), Places(picks))
    {
      ghost var before := Snapshot(Survivors(weaks));
      Retain();
      picks := Rank(weaks, before, limit);
    }

    /**
      The first of the best candidates that is not saturated when they are
      filtered, after traffic has set the counters in `traffic` anew; the
      references to the others are given back.
     */
    method PickUnsaturated(size: nat, traffic: map<nat, u32>) returns (r: Option<nat>)
      requires Valid()
      modifies this, weaks
      ensures Valid() && weaks == old(Survivors(weaks))
      ensures ScanFinds(old(Snapshot(Survivors(weaks))), Recounted(old(Snapshot(Survivors(weaks))), traffic), size, r)
      ensures Shows(weaks, Recounted(old(Snapshot(Survivors(weaks))), traffic), Chosen(r))
      ensures traffic == map[] ==> r == Unsaturated(old(Snapshot(Survivors(weaks))), size)
    {
      ghost var before := Snapshot(Survivors(weaks));
      ghost var later := Recounted(before, traffic);
      var picks := LeastBusy(Limit(size));
      r := Filter(weaks, before, later, size, picks, traffic);
      if traffic == map[] {
        NothingRecounted(before);
        FrozenScan(before, size, r);
      }
    }

    /** The second tier of a call whose first tier has seen `first`: other callers change jobs in between. */
    method ScanAgain(ghost first: seq<Slot>, changes: map<nat, Slot>, ghost mid: seq<Slot>, size: nat,
                     during: map<nat, u32>)
      returns (r: Option<nat>)
      requires Valid() && Shows(weaks, first, {}) && mid == Changed(first, changes)
      modifies this, weaks
      ensures Valid() && weaks == Kept(old(weaks), mid)
      ensures ScanFinds(Alive(mid), Recounted(Alive(mid), during), size, r)
      ensures Shows(weaks, Recounted(Alive(mid), during), Chosen(r))
    {
      Change(weaks, first, mid, changes);
      SnapshotIs(weaks, mid);
      SurvivorsAre(weaks, mid);
      r := PickUnsaturated(size, during);
    }

    /**
      The three tiers of a routed call. Between the first two, other callers
      change jobs as `changes` says; within the second, `during` sets counters anew.
     */
    method Choose(size: nat, changes: map<nat, Slot>, during: map<nat, u32>) returns (route: Route)
      requires Valid()
      modifies this, weaks
      ensures Valid()
      ensures var first := old(Snapshot(Survivors(weaks)));
        var mid := Changed(first, changes);
        var later := Recounted(Alive(mid), during);
        && RouteFinds(first, Alive(mid), later, size, route)
        && weaks == (if route.ViaIdle? then old(Survivors(weaks)) else Kept(old(Survivors(weaks)), mid))
        && Shows(weaks, if route.ViaIdle? then first else later, if route.ViaQueue? then {} else {route.at})
    {
      ghost var first := Snapshot(Survivors(weaks));
      var idle := PeekIdle();
      if idle.Some? {
        route := ViaIdle(idle.value);
      } else {
        var best := ScanAgain(first, changes, Changed(first, changes), size, during);
        route := if best.Some? then ViaScan(best.value) else ViaQueue;
      }
    }
  }
}
