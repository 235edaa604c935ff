/**
  Who uses which job while callers come and go. Each job has one owning
  reference, which sits in the pool's slot or in a checked-out object, until the
  pool lets go of the job. A call routed by a scan holds a further reference; a
  call served by the fair queue, like a reservation, uses the owning one.
 */
module Occupancy {
  import opened Wrappers
  import opened Json
  import opened Counter
  import opened Routing

  /** Where the owning reference of a job is. */
  datatype Owner = InSlot | CheckedOut(holder: nat) | Gone

  datatype JobState = JobState(owner: Owner, count: u32)

  /** A call that runs on a reference of its own, and whether it got it because the job looked idle. */
  datatype Ride = Ride(job: nat, idle: bool)

  /**
    Users, calls and reservations alike, are numbered. `rides` are the calls
    routed by a scan that still run, `waiting` the users that want an object.
    Jobs are known by the order in which they were made.
   */
  datatype Pool = Pool(jobs: seq<JobState>, registry: seq<nat>, rides: map<nat, Ride>, waiting: set<nat>)

  /**
    `Joins` is a scan that takes a reference to a job that is alive: the pick of
    the least busy job, or one the scan holds in passing. `Lost` is the pool
    letting go of a job: reaped from its slot, or refused when it was recycled
    for the user that just got it. `Counted` stands for whatever changes a
    counter: writes, replies, drains, reservations.
   */
  datatype Event =
    | Peeks(user: nat)
    | Joins(user: nat, job: nat)
    | Finished(user: nat)
    | Waits(user: nat)
    | GivesUp(user: nat)
    | Created(user: nat)
    | Served(user: nat, job: nat)
    | Returned(job: nat)
    | Lost(job: nat)
    | Counted(job: nat, count: u32)

  const EMPTY := Pool([], [], map[], {})

  predicate Owns(s: Pool, user: nat) {
    exists j :: 0 <= j < |s.jobs| && s.jobs[j].owner == CheckedOut(user)
  }

  /** The user already runs on some job, or waits for one. */
  predicate Busy(s: Pool, user: nat) {
    user in s.rides || user in s.waiting || Owns(s, user)
  }

  /** The calls with a reference of their own to `job`. */
  function Riders(s: Pool, job: nat): set<nat> {
    set u | u in s.rides && s.rides[u].job == job
  }

  /** Those among them that got it because it looked idle. */
  function IdleRiders(s: Pool, job: nat): set<nat> {
    set u | u in s.rides && s.rides[u].job == job && s.rides[u].idle
  }

  /** Everybody who is using `job`. */
  function Users(s: Pool, job: nat): set<nat>
    requires job < |s.jobs|
  {
    Riders(s, job) + if s.jobs[job].owner.CheckedOut? then {s.jobs[job].owner.holder} else {}
  }

  function Strong(s: Pool, job: nat): nat
    requires job < |s.jobs|
  {
    (if s.jobs[job].owner.Gone? then 0 else 1) + |Riders(s, job)|
  }

  predicate Valid(s: Pool) {
    && (forall i :: 0 <= i < |s.registry| ==> s.registry[i] < |s.jobs|)
    && (forall u :: u in s.rides ==> s.rides[u].job < |s.jobs|)
  }

  /** The registered jobs that somebody still holds. */
  function Pruned(s: Pool, registry: seq<nat>): (r: seq<nat>)
    requires forall i :: 0 <= i < |registry| ==> registry[i] < |s.jobs|
    ensures forall i :: 0 <= i < |r| ==> r[i] < |s.jobs|
  {
    if registry == [] then []
    else
      var rest := Pruned(s, registry[..|registry| - 1]);
      var last := registry[|registry| - 1];
      if Strong(s, last) > 0 then rest + [last] else rest
  }

  function SnapshotOf(s: Pool, registry: seq<nat>): (r: seq<Slot>)
    requires forall i :: 0 <= i < |registry| ==> registry[i] < |s.jobs|
    ensures |r| == |registry|
  {
    seq(|registry|, i requires 0 <= i < |registry| => Slot(Strong(s, registry[i]), s.jobs[registry[i]].count))
  }

  /** The job the idle scan finds, if any. */
  function IdlePick(s: Pool): (r: Option<nat>)
    requires Valid(s)
    ensures r.Some? ==> r.value < |s.jobs|
  {
    var alive := Pruned(s, s.registry);
    match FirstIdle(SnapshotOf(s, alive))
    case None => None
    case Some(at) => Some(alive[at])
  }

  function Board(s: Pool, user: nat, ride: Ride): Pool {
    s.(rides := s.rides[user := ride])
  }

  function Peek(s: Pool, user: nat): Pool
    requires Valid(s)
  {
    var t := s.(registry := Pruned(s, s.registry));
    match IdlePick(s)
    case None => t
    case Some(job) => Board(t, user, Ride(job, true))
  }

  function SetOwner(s: Pool, job: nat, owner: Owner): Pool
    requires job < |s.jobs|
  {
    s.(jobs := s.jobs[job := s.jobs[job].(owner := owner)])
  }

  /** A job refused while it is recycled sends its user back to wait for another. */
  function Lose(s: Pool, job: nat): Pool
    requires job < |s.jobs|
  {
    var owner := s.jobs[job].owner;
    SetOwner(s, job, Gone).(waiting := s.waiting + if owner.CheckedOut? then {owner.holder} else {})
  }

  /** Events that cannot happen in `s` change nothing. */
  function Step(s: Pool, ev: Event): Pool
    requires Valid(s)
  {
    match ev
    case Peeks(user) => if Busy(s, user) then s else Peek(s, user)
    case Joins(user, job) =>
      if Busy(s, user) || job >= |s.jobs| || Strong(s, job) == 0 then s else Board(s, user, Ride(job, false))
    case Finished(user) => s.(rides := s.rides - {user})
    case Waits(user) => if Busy(s, user) then s else s.(waiting := s.waiting + {user})
    case GivesUp(user) => s.(waiting := s.waiting - {user})
    case Created(user) =>
      if user !in s.waiting then s
      else
        s.(jobs := s.jobs + [JobState(CheckedOut(user), 0)],
           registry := s.registry + [|s.jobs|],
           waiting := s.waiting - {user})
    case Served(user, job) =>
      if user !in s.waiting || job >= |s.jobs| || !s.jobs[job].owner.InSlot? then s
      else SetOwner(s, job, CheckedOut(user)).(waiting := s.waiting - {user})
    case Returned(job) =>
      if job < |s.jobs| && s.jobs[job].owner.CheckedOut? then SetOwner(s, job, InSlot) else s
    case Lost(job) => if job < |s.jobs| then Lose(s, job) else s
    case Counted(job, count) =>
      if job < |s.jobs| then s.(jobs := s.jobs[job := s.jobs[job].(count := count)]) else s
  }

  lemma StepKeepsValid(s: Pool, ev: Event)
    requires Valid(s)
    ensures Valid(Step(s, ev))
  {
  }

  /** The states the pool can reach. */
  function Run(events: seq<Event>): (s: Pool)
    ensures Valid(s)
  {
    if events == [] then EMPTY
    else
      StepKeepsValid(Run(events[..|events| - 1]), events[|events| - 1]);
      Step(Run(events[..|events| - 1]), events[|events| - 1])
  }

  // ---- what an idle pick means ----------------------------------------------

  /**
    What the idle scan sees, exactly: nothing outstanding, and no call with a
    reference of its own, unless the pool has let go of the job; then there is
    exactly one.
   */
  lemma IdlePickExact(s: Pool, job: nat)
    requires Valid(s) && IdlePick(s) == Some(job)
    ensures s.jobs[job].count == 0
    ensures |Riders(s, job)| == if s.jobs[job].owner.Gone? then 1 else 0
  {
    var alive := Pruned(s, s.registry);
    var at := FirstIdle(SnapshotOf(s, alive)).value;
    assert LooksIdle(SnapshotOf(s, alive)[at]);
  }

  /**
    So a picked job has another user exactly when its owning reference is not in
    the slot: the one that has it checked out, or the one that outlived the
    pool's interest in it. There is never more than one.
   */
  lemma IdlePickShares(s: Pool, job: nat)
    requires Valid(s) && IdlePick(s) == Some(job)
    ensures |Users(s, job)| == if s.jobs[job].owner.InSlot? then 0 else 1
    ensures Users(s, job) != {} <==> !s.jobs[job].owner.InSlot?
    ensures s.jobs[job].owner.CheckedOut? ==> Users(s, job) == {s.jobs[job].owner.holder}
    ensures s.jobs[job].owner.Gone? ==> Users(s, job) == Riders(s, job)
  {
    IdlePickExact(s, job);
    if !s.jobs[job].owner.Gone? {
      assert Riders(s, job) == {};
    }
  }

  /** The pick gives the job to a user that was on no job before. */
  lemma PeekBoards(s: Pool, user: nat, job: nat)
    requires Valid(s) && !Busy(s, user) && IdlePick(s) == Some(job)
    ensures Step(s, Peeks(user)).rides == s.rides[user := Ride(job, true)] && Step(s, Peeks(user)).jobs == s.jobs
    ensures user !in Users(s, job)
  {
  }

  /**
    Over every run: whenever the idle scan hands out a job, the job is in use by
    somebody else if and only if its owning reference is not in the slot.
   */
  lemma IdlePickLaw(events: seq<Event>, user: nat, job: nat)
    requires !Busy(Run(events), user) && IdlePick(Run(events)) == Some(job)
    ensures var s, t := Run(events), Run(events + [Peeks(user)]);
      && t.rides == s.rides[user := Ride(job, true)]
      && ((exists other :: other in Users(s, job) && other != user) <==> !s.jobs[job].owner.InSlot?)
  {
    var s := Run(events);
    RunOneMore(events, Peeks(user));
    PeekBoards(s, user, job);
    IdlePickShares(s, job);
    if !s.jobs[job].owner.InSlot? {
      var other :| other in Users(s, job);
    }
  }

  // ---- exclusion over whole runs --------------------------------------------

  /** At most one running call got a job through the idle tier while the pool has it, and at most two ever. */
  ghost predicate Exclusive(s: Pool) {
    forall job: nat :: job < |s.jobs| ==> |IdleRiders(s, job)| <= if s.jobs[job].owner.Gone? then 2 else 1
  }

  lemma {:induction false} SmallerSet(a: set<nat>, b: set<nat>)
    requires a <= b
    ensures |a| <= |b|
  {
    if a == {} {
    } else {
      var x :| x in a;
      SmallerSet(a - {x}, b - {x});
    }
  }

  lemma NewRider(s: Pool, t: Pool, user: nat, job: nat, idle: bool)
    requires user !in s.rides && t.rides == s.rides[user := Ride(job, idle)]
    ensures IdleRiders(t, job) == IdleRiders(s, job) + if idle then {user} else {}
    ensures forall other: nat :: other != job ==> IdleRiders(t, other) == IdleRiders(s, other)
  {
  }

  lemma PeekKeepsExclusive(s: Pool, user: nat)
    requires Valid(s) && Exclusive(s) && !Busy(s, user)
    ensures Exclusive(Peek(s, user))
  {
    var t := Peek(s, user);
    match IdlePick(s)
    case None =>
      assert forall job: nat :: IdleRiders(t, job) == IdleRiders(s, job);
    case Some(job) =>
      NewRider(s, t, user, job, true);
      IdlePickExact(s, job);
      SmallerSet(IdleRiders(s, job), Riders(s, job));
  }

  lemma JoinKeepsExclusive(s: Pool, user: nat, job: nat)
    requires Valid(s) && Exclusive(s) && user !in s.rides
    ensures Exclusive(Board(s, user, Ride(job, false)))
  {
    var t := Board(s, user, Ride(job, false));
    NewRider(s, t, user, job, false);
    assert IdleRiders(t, job) == IdleRiders(s, job);
  }

  lemma FinishKeepsExclusive(s: Pool, user: nat)
    requires Exclusive(s)
    ensures Exclusive(s.(rides := s.rides - {user}))
  {
    var t := s.(rides := s.rides - {user});
    forall job: nat | job < |t.jobs| ensures |IdleRiders(t, job)| <= if t.jobs[job].owner.Gone? then 2 else 1 {
      SmallerSet(IdleRiders(t, job), IdleRiders(s, job));
    }
  }

  lemma CreateKeepsExclusive(s: Pool, user: nat)
    requires Valid(s) && Exclusive(s)
    ensures Exclusive(Step(s, Created(user)))
  {
    var t := Step(s, Created(user));
    forall job: nat | job < |t.jobs| ensures |IdleRiders(t, job)| <= if t.jobs[job].owner.Gone? then 2 else 1 {
      assert IdleRiders(t, job) == IdleRiders(s, job);
      if job == |s.jobs| {
        assert IdleRiders(s, job) == {};
      }
    }
  }

  /** Moving the owning reference about leaves the riders alone; once it is gone it stays gone. */
  lemma OwnerKeepsExclusive(s: Pool, t: Pool)
    requires Exclusive(s) && t.rides == s.rides && |t.jobs| == |s.jobs|
    requires forall j :: 0 <= j < |s.jobs| && s.jobs[j].owner.Gone? ==> t.jobs[j].owner.Gone?
    ensures Exclusive(t)
  {
    assert forall job: nat :: IdleRiders(t, job) == IdleRiders(s, job);
  }

  lemma OwnerMoveKeepsExclusive(s: Pool, job: nat, owner: Owner, waiting: set<nat>)
    requires Exclusive(s) && job < |s.jobs| && (s.jobs[job].owner.Gone? ==> owner.Gone?)
    ensures Exclusive(SetOwner(s, job, owner).(waiting := waiting))
  {
    OwnerKeepsExclusive(s, SetOwner(s, job, owner).(waiting := waiting));
  }

  lemma OwnerStepKeepsExclusive(s: Pool, ev: Event, job: nat)
    requires Valid(s) && Exclusive(s) && job < |s.jobs|
    requires (ev.Served? && ev.job == job) || ev == Returned(job) || ev == Lost(job)
    ensures Exclusive(Step(s, ev))
  {
    match ev
    case Served(user, _) =>
      if s.jobs[job].owner.InSlot? {
        OwnerMoveKeepsExclusive(s, job, CheckedOut(user), s.waiting - {user});
      }
    case Returned(_) =>
      if s.jobs[job].owner.CheckedOut? {
        OwnerMoveKeepsExclusive(s, job, InSlot, s.waiting);
      }
    case Lost(_) => OwnerMoveKeepsExclusive(s, job, Gone, Lose(s, job).waiting);
  }

  lemma StepKeepsExclusive(s: Pool, ev: Event)
    requires Valid(s) && Exclusive(s)
    ensures Exclusive(Step(s, ev))
  {
    match ev
    case Peeks(user) =>
      if !Busy(s, user) {
        PeekKeepsExclusive(s, user);
      }
    case Joins(user, job) =>
      if !Busy(s, user) {
        JoinKeepsExclusive(s, user, job);
      }
    case Finished(user) => FinishKeepsExclusive(s, user);
    case Created(user) => CreateKeepsExclusive(s, user);
    case Waits(_) => OwnerKeepsExclusive(s, Step(s, ev));
    case GivesUp(_) => OwnerKeepsExclusive(s, Step(s, ev));
    case Served(_, job) =>
      if job < |s.jobs| {
        OwnerStepKeepsExclusive(s, ev, job);
      }
    case Returned(job) =>
      if job < |s.jobs| {
        OwnerStepKeepsExclusive(s, ev, job);
      }
    case Lost(job) =>
      if job < |s.jobs| {
        OwnerStepKeepsExclusive(s, ev, job);
      }
    case Counted(_, _) => OwnerKeepsExclusive(s, Step(s, ev));
  }

  /**
    Over every interleaving of picks, queueing, sends, replies, reservations and
    losses: two overlapping calls never both have a job through the idle tier
    as long as the pool has it, and never more than two do.
   */
  lemma {:induction false} IdleTierExclusive(events: seq<Event>)
    ensures Exclusive(Run(events))
  {
    if events == [] {
      assert forall job: nat :: IdleRiders(EMPTY, job) == {};
    } else {
      IdleTierExclusive(events[..|events| - 1]);
      StepKeepsExclusive(Run(events[..|events| - 1]), events[|events| - 1]);
    }
  }

  // ---- the ways a picked job comes to be shared -----------------------------

  lemma RunOneMore(events: seq<Event>, ev: Event)
    ensures Run(events + [ev]) == Step(Run(events), ev)
  {
    assert (events + [ev])[..|events|] == events;
  }

  /** A single registered job with one reference and nothing outstanding is the idle scan's pick. */
  lemma OnlyJobIsPicked(s: Pool)
    requires Valid(s) && s.registry == [0] && |s.jobs| > 0 && Strong(s, 0) == 1 && s.jobs[0].count == 0
    ensures IdlePick(s) == Some(0) && Pruned(s, s.registry) == [0]
  {
    assert s.registry[..0] == [];
    assert Pruned(s, s.registry) == [0];
    assert SnapshotOf(s, [0]) == [Slot(1, 0)];
  }

  /** Two runs to start from: a call the fair queue has just served, and a job that came back to its slot. */
  lemma FirstJob(one: nat, served: seq<Event>)
    requires served == [Waits(one)] + [Created(one)]
    ensures Run(served) == Pool([JobState(CheckedOut(one), 0)], [0], map[], {})
    ensures Run(served + [Returned(0)]) == Pool([JobState(InSlot, 0)], [0], map[], {})
  {
    RunOneMore([], Waits(one));
    assert [] + [Waits(one)] == [Waits(one)];
    assert Run([Waits(one)]) == EMPTY.(waiting := {one});
    RunOneMore([Waits(one)], Created(one));
    RunOneMore(served, Returned(0));
  }

  /**
    In a cold pool: a call that the fair queue served, and that has not been
    written yet, shares its job with the next call, which finds the job idle.
   */
  lemma {:induction false} QueuedCallIsJoined(one: nat, two: nat, served: seq<Event>)
    requires one != two && served == [Waits(one)] + [Created(one)]
    ensures var s := Run(served + [Peeks(two)]);
      && s.jobs == [JobState(CheckedOut(one), 0)] && s.rides == map[two := Ride(0, true)]
      && Users(s, 0) == {one, two}
  {
    FirstJob(one, served);
    var s := Run(served);
    assert Riders(s, 0) == {};
    OnlyJobIsPicked(s);
    RunOneMore(served, Peeks(two));
    assert Riders(Run(served + [Peeks(two)]), 0) == {two};
  }

  /** The pick of the only job, free or left over by the pool. */
  lemma OnlyPick(s: Pool, user: nat)
    requires Valid(s) && s.registry == [0] && |s.jobs| > 0 && Strong(s, 0) == 1 && s.jobs[0].count == 0
    requires !Busy(s, user)
    ensures Step(s, Peeks(user)) == Board(s, user, Ride(0, true))
  {
    OnlyJobIsPicked(s);
  }

  lemma LostAfterPick(one: nat, s: Pool, t: Pool)
    requires s == Pool([JobState(InSlot, 0)], [0], map[], {})
    requires t == Pool([JobState(Gone, 0)], [0], map[one := Ride(0, true)], {})
    ensures Step(Step(s, Peeks(one)), Lost(0)) == t
    ensures Strong(t, 0) == 1
  {
    assert Riders(s, 0) == {};
    OnlyPick(s, one);
    assert Riders(t, 0) == {one};
  }

  /**
    And when the pool drops a connection, say by the idle reaper, between the
    call that picked it and the next, two calls have it through the idle tier.
   */
  lemma {:induction false} ReapedJobIsShared(prior: seq<Event>, one: nat, two: nat)
    requires one != two && Run(prior) == Pool([JobState(InSlot, 0)], [0], map[], {})
    ensures Run(prior + [Peeks(one)] + [Lost(0)] + [Peeks(two)]).rides ==
      map[one := Ride(0, true), two := Ride(0, true)]
  {
    var t := Pool([JobState(Gone, 0)], [0], map[one := Ride(0, true)], {});
    RunOneMore(prior, Peeks(one));
    RunOneMore(prior + [Peeks(one)], Lost(0));
    LostAfterPick(one, Run(prior), t);
    OnlyPick(t, two);
    RunOneMore(prior + [Peeks(one)] + [Lost(0)], Peeks(two));
  }

  // ---- who uses what, event by event ----------------------------------------

  predicate Holds(s: Pool, user: nat, job: nat) {
    job < |s.jobs| && s.jobs[job].owner == CheckedOut(user)
  }

  /** Nobody rides, waits and holds at once, or holds two jobs. */
  ghost predicate OneRole(s: Pool) {
    && (forall user :: user in s.rides ==> user !in s.waiting)
    && (forall user: nat, job: nat :: Holds(s, user, job) ==> user !in s.rides && user !in s.waiting)
    && (forall user: nat, j: nat, k: nat :: Holds(s, user, j) && Holds(s, user, k) ==> j == k)
  }

  lemma NotBusyHoldsNothing(s: Pool, user: nat)
    requires !Busy(s, user)
    ensures forall job: nat :: !Holds(s, user, job)
  {
  }

  lemma StepKeepsRoles(s: Pool, ev: Event)
    requires Valid(s) && OneRole(s)
    ensures OneRole(Step(s, ev))
  {
    var t := Step(s, ev);
    match ev
    case Peeks(user) =>
      if !Busy(s, user) {
        NotBusyHoldsNothing(s, user);
        assert forall u: nat, j: nat :: Holds(t, u, j) ==> Holds(s, u, j);
      }
    case Joins(user, _) =>
      if !Busy(s, user) {
        NotBusyHoldsNothing(s, user);
        assert forall u: nat, j: nat :: Holds(t, u, j) ==> Holds(s, u, j);
      }
    case Waits(user) =>
      if !Busy(s, user) {
        NotBusyHoldsNothing(s, user);
        assert forall u: nat, j: nat :: Holds(t, u, j) ==> Holds(s, u, j);
      }
    case Finished(_) => assert forall u: nat, j: nat :: Holds(t, u, j) ==> Holds(s, u, j);
    case GivesUp(_) => assert forall u: nat, j: nat :: Holds(t, u, j) ==> Holds(s, u, j);
    case Counted(_, _) => assert forall u: nat, j: nat :: Holds(t, u, j) ==> Holds(s, u, j);
    case Returned(_) => assert forall u: nat, j: nat :: Holds(t, u, j) ==> Holds(s, u, j);
    case Lost(job) =>
      assert forall u: nat, j: nat :: Holds(t, u, j) ==> Holds(s, u, j) && j != job;
      assert forall u: nat :: u in t.waiting ==> u in s.waiting || Holds(s, u, job);
    case Created(user) =>
      assert forall u: nat, j: nat :: Holds(t, u, j) ==> Holds(s, u, j) || (u == user && j == |s.jobs|);
    case Served(user, job) =>
      assert forall u: nat, j: nat :: Holds(t, u, j) ==> Holds(s, u, j) || (u == user && j == job);
  }

  lemma {:induction false} RunKeepsRoles(events: seq<Event>)
    ensures OneRole(Run(events))
  {
    if events == [] {
    } else {
      RunKeepsRoles(events[..|events| - 1]);
      StepKeepsRoles(Run(events[..|events| - 1]), events[|events| - 1]);
    }
  }

  /** From `s` to `t` the users of `job` become `users`, and those of other jobs stay. */
  ghost predicate UsersBecome(s: Pool, t: Pool, job: nat, users: set<nat>) {
    && |s.jobs| <= |t.jobs| && job < |t.jobs| && Users(t, job) == users
    && forall j: nat :: j < |s.jobs| && j != job ==> Users(t, j) == Users(s, j)
  }

  lemma RideEnds(s: Pool, user: nat, t: Pool)
    requires Valid(s) && OneRole(s) && user in s.rides && t == s.(rides := s.rides - {user})
    ensures UsersBecome(s, t, s.rides[user].job, Users(s, s.rides[user].job) - {user})
  {
    var job := s.rides[user].job;
    assert !Holds(s, user, job);
    forall j: nat ensures Riders(t, j) == Riders(s, j) - if j == job then {user} else {} {
    }
  }

  lemma OwnerMoves(s: Pool, job: nat, owner: Owner, waiting: set<nat>)
    requires Valid(s) && job < |s.jobs|
    ensures UsersBecome(s, SetOwner(s, job, owner).(waiting := waiting), job,
      Riders(s, job) + if owner.CheckedOut? then {owner.holder} else {})
  {
    var t := SetOwner(s, job, owner).(waiting := waiting);
    forall j: nat ensures Riders(t, j) == Riders(s, j) {
    }
  }

  /** A call the fair queue serves uses the job's owning reference; giving it back, it uses the job no longer. */
  lemma {:induction false} ServedUses(events: seq<Event>, user: nat, job: nat)
    requires var s := Run(events); user in s.waiting && job < |s.jobs| && s.jobs[job].owner.InSlot?
    ensures var s, t := Run(events), Run(events + [Served(user, job)]);
      && UsersBecome(s, t, job, Users(s, job) + {user}) && Holds(t, user, job) && t.waiting == s.waiting - {user}
  {
    var s := Run(events);
    RunOneMore(events, Served(user, job));
    OwnerMoves(s, job, CheckedOut(user), s.waiting - {user});
  }

  lemma ReturnStep(s: Pool, user: nat, job: nat)
    requires Valid(s) && OneRole(s) && Holds(s, user, job)
    ensures UsersBecome(s, SetOwner(s, job, InSlot), job, Users(s, job) - {user})
  {
    OwnerMoves(s, job, InSlot, s.waiting);
    assert user !in Riders(s, job);
    assert Users(s, job) - {user} == Riders(s, job) + {};
    assert SetOwner(s, job, InSlot).(waiting := s.waiting) == SetOwner(s, job, InSlot);
  }

  lemma {:induction false} ReturnedUses(events: seq<Event>, user: nat, job: nat)
    requires Holds(Run(events), user, job)
    ensures var s, t := Run(events), Run(events + [Returned(job)]);
      UsersBecome(s, t, job, Users(s, job) - {user}) && t == SetOwner(s, job, InSlot)
  {
    RunOneMore(events, Returned(job));
    RunKeepsRoles(events);
    ReturnStep(Run(events), user, job);
  }

  lemma LostStep(s: Pool, job: nat)
    requires Valid(s) && job < |s.jobs|
    ensures UsersBecome(s, Lose(s, job), job, Riders(s, job)) && Lose(s, job).rides == s.rides
    ensures Lose(s, job).jobs[job].owner == Gone
    ensures forall user: nat :: user in Lose(s, job).waiting <==> user in s.waiting || Holds(s, user, job)
  {
    OwnerMoves(s, job, Gone, Lose(s, job).waiting);
    assert Riders(s, job) + {} == Riders(s, job);
  }

  /** A user whose job is refused while it is recycled waits again; riders keep the job. */
  lemma {:induction false} LostUses(events: seq<Event>, job: nat)
    requires job < |Run(events).jobs|
    ensures var s, t := Run(events), Run(events + [Lost(job)]);
      && UsersBecome(s, t, job, Riders(s, job)) && t.jobs[job].owner == Gone && t.rides == s.rides
      && (forall user: nat :: user in t.waiting <==> user in s.waiting || Holds(s, user, job))
  {
    RunOneMore(events, Lost(job));
    LostStep(Run(events), job);
  }

  lemma RideStep(s: Pool, user: nat, t: Pool)
    requires Valid(s) && user !in s.rides && user in t.rides && t.rides[user].job < |s.jobs|
    requires t.jobs == s.jobs && t.rides == s.rides[user := t.rides[user]]
    ensures UsersBecome(s, t, t.rides[user].job, Users(s, t.rides[user].job) + {user})
  {
    forall j: nat ensures Riders(t, j) == Riders(s, j) + if j == t.rides[user].job then {user} else {} {
    }
  }

  lemma BoardStep(s: Pool, user: nat, ev: Event)
    requires Valid(s) && (ev.Peeks? || ev.Joins?) && ev.user == user
    requires user !in s.rides && user in Step(s, ev).rides
    ensures var t := Step(s, ev);
      t.jobs == s.jobs && t.rides == s.rides[user := t.rides[user]] && t.rides[user].job < |s.jobs| &&
        Strong(s, t.rides[user].job) > 0
  {
    if ev.Peeks? {
      IdlePickExact(s, IdlePick(s).value);
    }
  }

  /** A routed call uses its job from its pick until it has finished, and no other. */
  lemma {:induction false} RideUses(events: seq<Event>, user: nat, ev: Event, s: Pool, t: Pool)
    requires (ev.Peeks? || ev.Joins?) && ev.user == user && s == Run(events) && t == Run(events + [ev])
    requires user !in s.rides && user in t.rides
    ensures var job := t.rides[user].job;
      && job < |s.jobs| && Strong(s, job) > 0 && UsersBecome(s, t, job, Users(s, job) + {user})
      && UsersBecome(t, Run(events + [ev] + [Finished(user)]), job, Users(t, job) - {user})
  {
    RunOneMore(events, ev);
    RunOneMore(events + [ev], Finished(user));
    RunKeepsRoles(events + [ev]);
    BoardStep(s, user, ev);
    RideStep(s, user, t);
    RideEnds(t, user, t.(rides := t.rides - {user}));
  }

  /** A job that is made is used by the user it was made for and nobody else. */
  lemma {:induction false} CreatedUses(events: seq<Event>, user: nat)
    requires user in Run(events).waiting
    ensures var s, t := Run(events), Run(events + [Created(user)]);
      && UsersBecome(s, t, |s.jobs|, {user}) && Holds(t, user, |s.jobs|) && t.waiting == s.waiting - {user}
      && t.registry == s.registry + [|s.jobs|]
  {
    var s := Run(events);
    RunOneMore(events, Created(user));
    var t := Step(s, Created(user));
    assert Riders(t, |s.jobs|) == {};
    forall j: nat | j < |s.jobs| ensures Riders(t, j) == Riders(s, j) {
    }
  }

  /** Who wants an object waits until it has one or gives up. */
  lemma {:induction false} WaitingLasts(events: seq<Event>, user: nat)
    ensures var s := Run(events);
      && Run(events + [Waits(user)]).waiting == s.waiting + (if Busy(s, user) then {} else {user})
      && Run(events + [GivesUp(user)]).waiting == s.waiting - {user}
  {
    RunOneMore(events, Waits(user));
    RunOneMore(events, GivesUp(user));
  }

  /** Counting changes a counter and nothing else. */
  lemma {:induction false} CountedOnly(events: seq<Event>, job: nat, count: u32)
    requires job < |Run(events).jobs|
    ensures var s := Run(events);
      Run(events + [Counted(job, count)]) == s.(jobs := s.jobs[job := JobState(s.jobs[job].owner, count)])
  {
    RunOneMore(events, Counted(job, count));
  }

  predicate Possible(s: Pool, ev: Event) {
    match ev
    case Peeks(user) => !Busy(s, user)
    case Joins(user, job) => !Busy(s, user) && job < |s.jobs| && Strong(s, job) > 0
    case Finished(user) => user in s.rides
    case Waits(user) => !Busy(s, user)
    case GivesUp(user) => user in s.waiting
    case Created(user) => user in s.waiting
    case Served(user, job) => user in s.waiting && job < |s.jobs| && s.jobs[job].owner.InSlot?
    case Returned(job) => job < |s.jobs| && s.jobs[job].owner.CheckedOut?
    case Lost(job) => job < |s.jobs|
    case Counted(job, _) => job < |s.jobs|
  }

  /** Events that cannot happen change nothing: a user has one job at a time, and a dead job is not joined. */
  lemma {:induction false} ImpossibleStutters(events: seq<Event>, ev: Event)
    requires !Possible(Run(events), ev)
    ensures Run(events + [ev]) == Run(events)
  {
    RunOneMore(events, ev);
    assert forall u: nat :: u !in Run(events).rides ==> Run(events).rides - {u} == Run(events).rides;
    assert forall u: nat :: u !in Run(events).waiting ==> Run(events).waiting - {u} == Run(events).waiting;
  }
}
