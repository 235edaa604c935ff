/**
  The sweep for idle connections. Times are in nanoseconds from the start of
  the sweeps; a connection may have been used before that.
 */
module Reaper {
  import opened Wrappers

  const SECOND := 1_000_000_000
  const MINUTE := 60_000_000_000

  function Clamp(x: nat, low: nat, high: nat): nat {
    if x < low then low else if x > high then high else x
  }

  /** A quarter of the timeout, at least a second and at most a minute; no sweep when the timeout is zero. */
  function Period(timeout: nat): (r: Option<nat>)
    ensures r.None? <==> timeout == 0
    ensures 0 < timeout < 4_000_000_000 ==> r == Some(1_000_000_000)
    ensures 4_000_000_000 <= timeout <= 240_000_000_000 ==> r.Some? && 4 * r.value <= timeout < 4 * r.value + 4
    ensures timeout > 240_000_000_000 ==> r == Some(60_000_000_000)
  {
    if timeout == 0 then None else Some(Clamp(timeout / 4, SECOND, MINUTE))
  }

  /**
    A connection of the pool: when it last answered the ping of a checkout (or
    was made), when it was last in use otherwise, and whether it is out of the
    slots. One that is made later, or is lost, counts as out meanwhile.
   */
  datatype Pooled = Pooled(id: nat, pinged: int, touched: int, out: bool)

  /** A checkout pings the connection; a call routed by the registry uses it without a ping. */
  datatype Use = Checkout(id: nat, at: int) | Return(id: nat, at: int) | Routed(id: nat, at: int)

  datatype Reaped = Reaped(c: Pooled, age: int)

  function Later(a: int, b: int): int {
    if a < b then b else a
  }

  function Used(c: Pooled, use: Use): Pooled {
    if use.id != c.id then c
    else
      match use
      case Checkout(_, at) => c.(pinged := Later(c.pinged, at), out := true)
      case Return(_, at) => c.(touched := Later(c.touched, at), out := false)
      case Routed(_, at) => c.(touched := Later(c.touched, at))
  }

  function After(c: Pooled, uses: seq<Use>): Pooled {
    if uses == [] then c else Used(After(c, uses[..|uses| - 1]), uses[|uses| - 1])
  }

  lemma OneUse(c: Pooled, use: Use)
    ensures After(c, [use]) == Used(c, use)
  {
    assert [use][..0] == [];
  }

  function AllAfter(pool: seq<Pooled>, uses: seq<Use>): seq<Pooled> {
    seq(|pool|, i requires 0 <= i < |pool| => After(pool[i], uses))
  }

  /** A sweep does not see what is out of the slots, and keeps what was pinged recently enough. */
  predicate Stays(c: Pooled, now: int, timeout: nat) {
    c.out || now - c.pinged < timeout
  }

  /** What a sweep keeps. */
  function Recent(pool: seq<Pooled>, now: int, timeout: nat): seq<Pooled> {
    if pool == [] then []
    else
      var rest := Recent(pool[..|pool| - 1], now, timeout);
      if Stays(pool[|pool| - 1], now, timeout) then rest + [pool[|pool| - 1]] else rest
  }

  /** What a sweep drops, with the time since its last ping. */
  function Overdue(pool: seq<Pooled>, now: int, timeout: nat): seq<Reaped> {
    if pool == [] then []
    else
      var rest := Overdue(pool[..|pool| - 1], now, timeout);
      var last := pool[|pool| - 1];
      if Stays(last, now, timeout) then rest else rest + [Reaped(last, now - last.pinged)]
  }

  /** What is left after one sweep for each element of `rounds`, the uses before it, at the multiples of `period`. */
  function Swept(pool: seq<Pooled>, rounds: seq<seq<Use>>, timeout: nat, period: nat): seq<Pooled> {
    if rounds == [] then pool
    else
      var n := |rounds|;
      Recent(AllAfter(Swept(pool, rounds[..n - 1], timeout, period), rounds[n - 1]), n * period, timeout)
  }

  /** The connections dropped by those sweeps. */
  function Dropped(pool: seq<Pooled>, rounds: seq<seq<Use>>, timeout: nat, period: nat): seq<Reaped> {
    if rounds == [] then []
    else
      var n := |rounds|;
      Dropped(pool, rounds[..n - 1], timeout, period)
      + Overdue(AllAfter(Swept(pool, rounds[..n - 1], timeout, period), rounds[n - 1]), n * period, timeout)
  }

  class Sweeper {
    var pool: seq<Pooled>
    var removed: seq<Reaped>

    constructor (pool: seq<Pooled>)
      ensures this.pool == pool && removed == []
    {
      this.pool, removed := pool, [];
    }

    /** Keeps what is out or was pinged recently enough; the rest is dropped. */
    method Tick(now: int, timeout: nat)
      modifies this
      ensures pool == Recent(old(pool), now, timeout)
      ensures removed == old(removed) + Overdue(old(pool), now, timeout)
    {
      var kept: seq<Pooled>, gone: seq<Reaped> := [], [];
      for i := 0 to |pool|
        invariant pool == old(pool) && removed == old(removed)
        invariant kept == Recent(pool[..i], now, timeout) && gone == Overdue(pool[..i], now, timeout)
      {
        assert pool[..i + 1][..i] == pool[..i];
        if Stays(pool[i], now, timeout) {
          kept := kept + [pool[i]];
        } else {
          gone := gone + [Reaped(pool[i], now - pool[i].pinged)];
        }
      }
      assert pool[..|pool|] == pool;
      pool, removed := kept, removed + gone;
    }

    /** The reaper's loop over its ticks after the skipped one; `rounds` is what is used before each. */
    method Sweep(timeout: nat, period: nat, rounds: seq<seq<Use>>)
      modifies this
      ensures pool == Swept(old(pool), rounds, timeout, period)
      ensures removed == old(removed) + Dropped(old(pool), rounds, timeout, period)
    {
      for k := 0 to |rounds|
        invariant pool == Swept(old(pool), rounds[..k], timeout, period)
        invariant removed == old(removed) + Dropped(old(pool), rounds[..k], timeout, period)
      {
        assert rounds[..k + 1][..k] == rounds[..k];
        pool := AllAfter(pool, rounds[k]);
        Tick((k + 1) * period, timeout);
      }
      assert rounds[..|rounds|] == rounds;
    }
  }

  // ---- one connection -------------------------------------------------------

  /** The connection as it is after those uses. */
  function Seen(c: Pooled, rounds: seq<seq<Use>>): Pooled {
    if rounds == [] then c else After(Seen(c, rounds[..|rounds| - 1]), rounds[|rounds| - 1])
  }

  /** No sweep so far has found it in the slots and too old. */
  predicate Survives(c: Pooled, rounds: seq<seq<Use>>, timeout: nat, period: nat) {
    forall k :: 1 <= k <= |rounds| ==> Stays(Seen(c, rounds[..k]), k * period, timeout)
  }

  /** Sweep `k` is the one that drops it. */
  predicate DropsAt(c: Pooled, rounds: seq<seq<Use>>, timeout: nat, period: nat, k: nat) {
    && 1 <= k <= |rounds| && Survives(c, rounds[..k - 1], timeout, period)
    && !Stays(Seen(c, rounds[..k]), k * period, timeout)
  }

  lemma {:induction false} RecentAre(pool: seq<Pooled>, now: int, timeout: nat)
    ensures forall c :: c in Recent(pool, now, timeout) <==> c in pool && Stays(c, now, timeout)
  {
    if pool == [] {
    } else {
      RecentAre(pool[..|pool| - 1], now, timeout);
      assert pool == pool[..|pool| - 1] + [pool[|pool| - 1]];
    }
  }

  lemma {:induction false} OverdueAre(pool: seq<Pooled>, now: int, timeout: nat)
    ensures forall r :: r in Overdue(pool, now, timeout) <==>
      r.c in pool && !Stays(r.c, now, timeout) && r.age == now - r.c.pinged
  {
    if pool == [] {
    } else {
      OverdueAre(pool[..|pool| - 1], now, timeout);
      assert pool == pool[..|pool| - 1] + [pool[|pool| - 1]];
    }
  }

  lemma AllAfterAre(pool: seq<Pooled>, uses: seq<Use>)
    ensures forall x :: x in AllAfter(pool, uses) <==> exists c :: c in pool && x == After(c, uses)
  {
    forall c | c in pool ensures After(c, uses) in AllAfter(pool, uses) {
      var i :| 0 <= i < |pool| && pool[i] == c;
      assert AllAfter(pool, uses)[i] == After(c, uses);
    }
  }

  lemma SurvivesOneMore(c: Pooled, rounds: seq<seq<Use>>, timeout: nat, period: nat)
    requires rounds != []
    ensures var init := rounds[..|rounds| - 1];
      Survives(c, rounds, timeout, period) <==>
        Survives(c, init, timeout, period) && Stays(Seen(c, rounds), |rounds| * period, timeout)
  {
    var init := rounds[..|rounds| - 1];
    assert rounds[..|rounds|] == rounds;
    assert forall k :: 0 <= k <= |init| ==> rounds[..k] == init[..k];
  }

  /** The pool has, after the sweeps, exactly the connections that survive them, as they were last used. */
  lemma {:induction false} SweptAre(pool: seq<Pooled>, rounds: seq<seq<Use>>, timeout: nat, period: nat)
    ensures forall x :: x in Swept(pool, rounds, timeout, period) <==>
      exists c :: c in pool && Survives(c, rounds, timeout, period) && x == Seen(c, rounds)
  {
    if rounds == [] {
    } else {
      var n := |rounds|;
      var init := rounds[..n - 1];
      SweptAre(pool, init, timeout, period);
      AllAfterAre(Swept(pool, init, timeout, period), rounds[n - 1]);
      RecentAre(AllAfter(Swept(pool, init, timeout, period), rounds[n - 1]), n * period, timeout);
      forall c {
        SurvivesOneMore(c, rounds, timeout, period);
      }
      forall c | c in pool && Survives(c, rounds, timeout, period)
        ensures Seen(c, rounds) in Swept(pool, rounds, timeout, period)
      {
        assert Seen(c, init) in Swept(pool, init, timeout, period);
      }
    }
  }

  /** The record of a connection dropped at sweep `k`. */
  function RecordOf(c: Pooled, rounds: seq<seq<Use>>, period: nat, k: nat): Reaped
    requires k <= |rounds|
  {
    Reaped(Seen(c, rounds[..k]), k * period - Seen(c, rounds[..k]).pinged)
  }

  /** `r` records one of the connections, dropped at sweep `k`. */
  ghost predicate RecordedAt(pool: seq<Pooled>, rounds: seq<seq<Use>>, timeout: nat, period: nat, k: nat, r: Reaped) {
    exists c :: c in pool && DropsAt(c, rounds, timeout, period, k) && r == RecordOf(c, rounds, period, k)
  }

  lemma RecordedEarlier(pool: seq<Pooled>, rounds: seq<seq<Use>>, timeout: nat, period: nat, k: nat, r: Reaped)
    requires 1 <= k < |rounds|
    ensures RecordedAt(pool, rounds, timeout, period, k, r) <==>
      RecordedAt(pool, rounds[..|rounds| - 1], timeout, period, k, r)
  {
    var init := rounds[..|rounds| - 1];
    assert rounds[..k] == init[..k] && rounds[..k - 1] == init[..k - 1];
    forall c ensures DropsAt(c, rounds, timeout, period, k) <==> DropsAt(c, init, timeout, period, k) {
    }
  }

  lemma RecordedLast(pool: seq<Pooled>, rounds: seq<seq<Use>>, timeout: nat, period: nat, r: Reaped)
    requires rounds != []
    ensures var n := |rounds|;
      r in Overdue(AllAfter(Swept(pool, rounds[..n - 1], timeout, period), rounds[n - 1]), n * period, timeout) <==>
        RecordedAt(pool, rounds, timeout, period, n, r)
  {
    var n := |rounds|;
    var init := rounds[..n - 1];
    assert rounds[..n] == rounds;
    SweptAre(pool, init, timeout, period);
    AllAfterAre(Swept(pool, init, timeout, period), rounds[n - 1]);
    OverdueAre(AllAfter(Swept(pool, init, timeout, period), rounds[n - 1]), n * period, timeout);
    forall c | c in pool && Survives(c, init, timeout, period)
      ensures Seen(c, init) in Swept(pool, init, timeout, period)
    {
    }
  }

  ghost predicate Recorded(pool: seq<Pooled>, rounds: seq<seq<Use>>, timeout: nat, period: nat, r: Reaped) {
    exists k :: 1 <= k <= |rounds| && RecordedAt(pool, rounds, timeout, period, k, r)
  }

  lemma RecordedOneMore(pool: seq<Pooled>, rounds: seq<seq<Use>>, timeout: nat, period: nat, r: Reaped)
    requires rounds != []
    ensures Recorded(pool, rounds, timeout, period, r) <==>
      || Recorded(pool, rounds[..|rounds| - 1], timeout, period, r)
      || RecordedAt(pool, rounds, timeout, period, |rounds|, r)
  {
    var init := rounds[..|rounds| - 1];
    forall k | 1 <= k < |rounds|
      ensures RecordedAt(pool, rounds, timeout, period, k, r) <==> RecordedAt(pool, init, timeout, period, k, r)
    {
      RecordedEarlier(pool, rounds, timeout, period, k, r);
    }
    if Recorded(pool, init, timeout, period, r) {
      var k :| 1 <= k <= |init| && RecordedAt(pool, init, timeout, period, k, r);
      assert RecordedAt(pool, rounds, timeout, period, k, r);
    }
  }

  /** And the sweeps have dropped exactly the others, each at the first sweep that saw it too old. */
  lemma {:induction false} DroppedAre(pool: seq<Pooled>, rounds: seq<seq<Use>>, timeout: nat, period: nat, r: Reaped)
    ensures r in Dropped(pool, rounds, timeout, period) <==> Recorded(pool, rounds, timeout, period, r)
  {
    if rounds == [] {
    } else {
      DroppedAre(pool, rounds[..|rounds| - 1], timeout, period, r);
      RecordedLast(pool, rounds, timeout, period, r);
      RecordedOneMore(pool, rounds, timeout, period, r);
    }
  }

  // ---- what a connection's uses leave behind --------------------------------

  predicate IsCheckout(use: Use, c: Pooled) {
    use.id == c.id && use.Checkout?
  }

  predicate IsReturn(use: Use, c: Pooled) {
    use.id == c.id && use.Return?
  }

  /** A use of `c` that pings nothing. */
  predicate Unpinged(use: Use, c: Pooled) {
    use.id == c.id && !use.Checkout?
  }

  /** Checkout `i` has not been followed by a return. */
  ghost predicate Holds(c: Pooled, uses: seq<Use>, i: nat) {
    i < |uses| && IsCheckout(uses[i], c) && forall j :: i < j < |uses| ==> !IsReturn(uses[j], c)
  }

  lemma {:induction false} PingedAfter(c: Pooled, uses: seq<Use>, x: int)
    ensures After(c, uses).pinged <= x <==>
      c.pinged <= x && forall i :: 0 <= i < |uses| && IsCheckout(uses[i], c) ==> uses[i].at <= x
  {
    if uses == [] {
    } else {
      var n := |uses| - 1;
      PingedAfter(c, uses[..n], x);
      AfterLater(c, uses[..n]);
      assert uses == uses[..n] + [uses[n]];
    }
  }

  lemma {:induction false} TouchedAfter(c: Pooled, uses: seq<Use>, x: int)
    ensures After(c, uses).touched <= x <==>
      c.touched <= x && forall i :: 0 <= i < |uses| && Unpinged(uses[i], c) ==> uses[i].at <= x
  {
    if uses == [] {
    } else {
      var n := |uses| - 1;
      TouchedAfter(c, uses[..n], x);
      AfterLater(c, uses[..n]);
      assert uses == uses[..n] + [uses[n]];
    }
  }

  lemma {:induction false} OutAfter(c: Pooled, uses: seq<Use>)
    ensures After(c, uses).out <==>
      || (exists i: nat :: Holds(c, uses, i))
      || (c.out && forall j :: 0 <= j < |uses| ==> !IsReturn(uses[j], c))
  {
    if uses == [] {
    } else {
      var n: nat := |uses| - 1;
      var init, last := uses[..n], uses[n];
      OutAfter(c, init);
      AfterLater(c, init);
      assert uses == init + [last];
      if IsCheckout(last, c) {
        assert Holds(c, uses, n);
      } else {
        forall i: nat ensures Holds(c, uses, i) <==> Holds(c, init, i) && !IsReturn(last, c) {
          HoldsOn(c, uses, i);
        }
      }
    }
  }

  lemma HoldsOn(c: Pooled, uses: seq<Use>, i: nat)
    requires uses != [] && !IsCheckout(uses[|uses| - 1], c)
    ensures Holds(c, uses, i) <==> Holds(c, uses[..|uses| - 1], i) && !IsReturn(uses[|uses| - 1], c)
  {
    var n := |uses| - 1;
    assert forall j :: 0 <= j < n ==> uses[..n][j] == uses[j];
  }

  /** All the uses before the sweeps, in order. */
  function Flat(rounds: seq<seq<Use>>): seq<Use> {
    if rounds == [] then [] else Flat(rounds[..|rounds| - 1]) + rounds[|rounds| - 1]
  }

  lemma {:induction false} AfterBoth(c: Pooled, first: seq<Use>, later: seq<Use>)
    ensures After(c, first + later) == After(After(c, first), later)
  {
    if later == [] {
      assert first + later == first;
    } else {
      var n := |later| - 1;
      AfterBoth(c, first, later[..n]);
      assert (first + later)[..|first + later| - 1] == first + later[..n];
    }
  }

  lemma {:induction false} SeenFlat(c: Pooled, rounds: seq<seq<Use>>)
    ensures Seen(c, rounds) == After(c, Flat(rounds))
  {
    if rounds == [] {
    } else {
      SeenFlat(c, rounds[..|rounds| - 1]);
      AfterBoth(c, Flat(rounds[..|rounds| - 1]), rounds[|rounds| - 1]);
    }
  }

  /**
    What all the uses so far leave: a connection's last ping is its latest checkout,
    its last other use the latest return or routed call, and it is out exactly if a
    checkout has not been followed by a return.
   */
  lemma SeenIs(c: Pooled, rounds: seq<seq<Use>>, x: int)
    ensures var t, uses := Seen(c, rounds), Flat(rounds);
      && t.id == c.id
      && (t.pinged <= x <==>
            c.pinged <= x && forall i :: 0 <= i < |uses| && IsCheckout(uses[i], c) ==> uses[i].at <= x)
      && (t.touched <= x <==>
            c.touched <= x && forall i :: 0 <= i < |uses| && Unpinged(uses[i], c) ==> uses[i].at <= x)
      && (t.out <==>
            || (exists i: nat :: Holds(c, uses, i))
            || (c.out && forall j :: 0 <= j < |uses| ==> !IsReturn(uses[j], c)))
  {
    SeenFlat(c, rounds);
    AfterLater(c, Flat(rounds));
    PingedAfter(c, Flat(rounds), x);
    TouchedAfter(c, Flat(rounds), x);
    OutAfter(c, Flat(rounds));
  }

  // ---- how long after its last checkout a connection is dropped --------------

  lemma RoundUp(due: int, period: nat, k: int)
    requires period > 0 && k == (due + period - 1) / period
    ensures k * period >= due && (k - 1) * period < due
  {
    var r := (due + period - 1) % period;
    assert due + period - 1 == k * period + r;
    assert (k - 1) * period == k * period - period;
  }

  lemma Monotone(j: int, k: int, period: nat)
    requires j <= k
    ensures j * period <= k * period
  {
    assert k * period == j * period + (k - j) * period;
  }

  /** The first sweep at which the last ping of `c` is too old. */
  function RemovalSweep(c: Pooled, timeout: nat, period: nat): (k: nat)
    requires period > 0
    ensures k >= 1
    ensures k * period >= c.pinged + timeout
    ensures k > 1 ==> (k - 1) * period < c.pinged + timeout
  {
    var k := (c.pinged + timeout + period - 1) / period;
    RoundUp(c.pinged + timeout, period, k);
    if k >= 1 then k
    else
      Monotone(k, 1, period);
      1
  }

  /** Its ping is too old exactly from that sweep on. */
  lemma OverdueFrom(c: Pooled, timeout: nat, period: nat, k: nat)
    requires period > 0 && k >= 1
    ensures !Stays(c, k * period, timeout) <==> !c.out && k >= RemovalSweep(c, timeout, period)
  {
    var first := RemovalSweep(c, timeout, period);
    if k >= first {
      Monotone(first, k, period);
    } else {
      Monotone(k, first - 1, period);
    }
  }

  lemma {:induction false} AfterLater(c: Pooled, uses: seq<Use>)
    ensures After(c, uses).id == c.id && After(c, uses).pinged >= c.pinged
  {
    if uses == [] {
    } else {
      AfterLater(c, uses[..|uses| - 1]);
    }
  }

  lemma {:induction false} SeenLater(c: Pooled, rounds: seq<seq<Use>>, j: nat)
    requires j <= |rounds|
    ensures Seen(c, rounds).id == c.id && Seen(c, rounds[..j]).pinged <= Seen(c, rounds).pinged
    decreases |rounds|
  {
    if rounds == [] {
    } else {
      var init := rounds[..|rounds| - 1];
      AfterLater(Seen(c, init), rounds[|rounds| - 1]);
      SeenLater(c, init, if j < |rounds| then j else |init|);
      if j < |rounds| {
        assert rounds[..j] == init[..j];
      } else {
        assert rounds[..j] == rounds;
      }
    }
  }

  lemma EarlierSweep(b: Pooled, c: Pooled, timeout: nat, period: nat)
    requires period > 0 && b.pinged <= c.pinged
    ensures RemovalSweep(b, timeout, period) <= RemovalSweep(c, timeout, period)
  {
    var j, k := RemovalSweep(b, timeout, period), RemovalSweep(c, timeout, period);
    if j > k {
      Monotone(k, j - 1, period);
    }
  }

  /**
    However connections are checked out, returned and used: one that is dropped
    is due by its last checkout, and had been out at every sweep since it was.
   */
  lemma DroppedOnSight(c: Pooled, rounds: seq<seq<Use>>, timeout: nat, period: nat, k: nat)
    requires period > 0 && DropsAt(c, rounds, timeout, period, k)
    ensures var due := RemovalSweep(Seen(c, rounds[..k]), timeout, period);
      due <= k && forall j :: due <= j < k ==> Seen(c, rounds[..j]).out
  {
    var t := Seen(c, rounds[..k]);
    var due := RemovalSweep(t, timeout, period);
    OverdueFrom(t, timeout, period, k);
    forall j: nat | due <= j < k ensures Seen(c, rounds[..j]).out {
      var b := Seen(c, rounds[..j]);
      assert rounds[..k][..j] == rounds[..j] == rounds[..k - 1][..j];
      SeenLater(c, rounds[..k], j);
      EarlierSweep(b, t, timeout, period);
      OverdueFrom(b, timeout, period, j);
      assert Stays(Seen(c, rounds[..k - 1][..j]), j * period, timeout);
    }
  }

  /**
    So no connection is dropped within the timeout of its last checkout, and it
    is dropped within a period more, unless it was due before the sweeps began
    or was out at the sweep at which it came to be due.
   */
  lemma AgeBounds(c: Pooled, rounds: seq<seq<Use>>, timeout: nat, period: nat, k: nat)
    requires period > 0 && DropsAt(c, rounds, timeout, period, k)
    ensures timeout <= RecordOf(c, rounds, period, k).age && c.pinged <= k * period - timeout
    ensures forall i :: 0 <= i < |Flat(rounds[..k])| && IsCheckout(Flat(rounds[..k])[i], c) ==>
      Flat(rounds[..k])[i].at <= k * period - timeout
    ensures var t := Seen(c, rounds[..k]);
      var due := RemovalSweep(t, timeout, period);
      && due <= k
      && (RecordOf(c, rounds, period, k).age < timeout + period <==>
            t.pinged + timeout > 0 && !Seen(c, rounds[..due]).out)
  {
    var t := Seen(c, rounds[..k]);
    var due := RemovalSweep(t, timeout, period);
    DroppedOnSight(c, rounds, timeout, period, k);
    SeenIs(c, rounds[..k], k * period - timeout);
    assert (due - 1) * period == due * period - period;
    if due < k {
      Monotone(due, k - 1, period);
      assert (k - 1) * period == k * period - period;
    }
  }

  /** One that stays out has no bound: it is dropped at whichever sweep first finds it back. */
  lemma HeldAcrossSweeps(c: Pooled, rounds: seq<seq<Use>>, timeout: nat, period: nat, k: nat, at: int)
    requires period > 0 && c.out && 1 <= k <= |rounds|
    requires forall i :: 0 <= i < k - 1 ==> rounds[i] == []
    requires rounds[k - 1] == [Return(c.id, at)]
    ensures DropsAt(c, rounds, timeout, period, k) <==> k >= RemovalSweep(c, timeout, period)
    ensures RecordOf(c, rounds, period, k).age == k * period - c.pinged
  {
    forall j: nat | j < k ensures Seen(c, rounds[..j]) == c {
      Untouched(c, rounds[..j]);
    }
    var t := c.(touched := Later(c.touched, at), out := false);
    assert rounds[..k][..k - 1] == rounds[..k - 1];
    OneUse(c, Return(c.id, at));
    assert Seen(c, rounds[..k]) == t;
    OverdueFrom(t, timeout, period, k);
    forall j: nat | 1 <= j <= k - 1 ensures Stays(Seen(c, rounds[..k - 1][..j]), j * period, timeout) {
      assert rounds[..k - 1][..j] == rounds[..j];
    }
  }

  // ---- how long after its last use ------------------------------------------

  /** The last use of any kind. */
  function LastUse(c: Pooled): int {
    Later(c.pinged, c.touched)
  }

  /**
    What the documentation promises of the last use holds only for checkouts: a
    dropped connection had been unused for the whole timeout if and only if
    no routed call and no return fell within it.
   */
  lemma UnusedWhenDropped(c: Pooled, rounds: seq<seq<Use>>, timeout: nat, period: nat, k: nat)
    requires period > 0 && DropsAt(c, rounds, timeout, period, k)
    ensures var uses := Flat(rounds[..k]);
      timeout <= k * period - LastUse(Seen(c, rounds[..k])) <==>
        && c.touched <= k * period - timeout
        && forall i :: 0 <= i < |uses| && Unpinged(uses[i], c) ==> uses[i].at <= k * period - timeout
  {
    AgeBounds(c, rounds, timeout, period, k);
    SeenIs(c, rounds[..k], k * period - timeout);
  }

  // ---- a connection that is not checked out ----------------------------------

  predicate OnlyRouted(c: Pooled, rounds: seq<seq<Use>>) {
    forall i, j :: 0 <= i < |rounds| && 0 <= j < |rounds[i]| && rounds[i][j].id == c.id ==> rounds[i][j].Routed?
  }

  lemma {:induction false} RoutedAfter(c: Pooled, uses: seq<Use>)
    requires forall j :: 0 <= j < |uses| && uses[j].id == c.id ==> uses[j].Routed?
    ensures After(c, uses) == c.(touched := After(c, uses).touched)
  {
    if uses == [] {
    } else {
      RoutedAfter(c, uses[..|uses| - 1]);
    }
  }

  lemma {:induction false} RoutedSeen(c: Pooled, rounds: seq<seq<Use>>)
    requires OnlyRouted(c, rounds)
    ensures Seen(c, rounds) == c.(touched := Seen(c, rounds).touched)
  {
    if rounds == [] {
    } else {
      RoutedSeen(c, rounds[..|rounds| - 1]);
      RoutedAfter(Seen(c, rounds[..|rounds| - 1]), rounds[|rounds| - 1]);
    }
  }

  lemma {:induction false} Untouched(c: Pooled, rounds: seq<seq<Use>>)
    requires forall i :: 0 <= i < |rounds| ==> rounds[i] == []
    ensures Seen(c, rounds) == c
  {
    if rounds == [] {
    } else {
      Untouched(c, rounds[..|rounds| - 1]);
    }
  }

  lemma RoutedSurvives(c: Pooled, rounds: seq<seq<Use>>, timeout: nat, period: nat)
    requires period > 0 && !c.out && OnlyRouted(c, rounds)
    ensures Survives(c, rounds, timeout, period) <==> |rounds| < RemovalSweep(c, timeout, period)
  {
    forall j: nat | 1 <= j <= |rounds|
      ensures Stays(Seen(c, rounds[..j]), j * period, timeout) <==> j < RemovalSweep(c, timeout, period)
    {
      RoutedSeen(c, rounds[..j]);
      OverdueFrom(Seen(c, rounds[..j]), timeout, period, j);
    }
    var n: nat := |rounds|;
    if n >= RemovalSweep(c, timeout, period) {
      assert !Stays(Seen(c, rounds[..n]), n * period, timeout);
    }
  }

  /** Routed calls do not delay it: a connection nobody checks out is dropped at its removal sweep, used or not. */
  lemma RoutedDropsThen(c: Pooled, rounds: seq<seq<Use>>, timeout: nat, period: nat, k: nat)
    requires period > 0 && !c.out && 1 <= k <= |rounds| && OnlyRouted(c, rounds)
    ensures DropsAt(c, rounds, timeout, period, k) <==> k == RemovalSweep(c, timeout, period)
    ensures RecordOf(c, rounds, period, k).age == k * period - c.pinged
  {
    RoutedSurvives(c, rounds[..k - 1], timeout, period);
    RoutedSeen(c, rounds[..k]);
    OverdueFrom(Seen(c, rounds[..k]), timeout, period, k);
  }

  /** So a call routed to it a nanosecond before that sweep does not save it. */
  lemma DroppedRightAfterUse(c: Pooled, rounds: seq<seq<Use>>, timeout: nat, period: nat, k: nat)
    requires period > 0 && timeout > 0 && !c.out && c.touched <= c.pinged
    requires k == |rounds| == RemovalSweep(c, timeout, period)
    requires forall i :: 0 <= i < k - 1 ==> rounds[i] == []
    requires rounds[k - 1] == [Routed(c.id, k * period - 1)]
    ensures DropsAt(c, rounds, timeout, period, k)
    ensures k * period - LastUse(Seen(c, rounds[..k])) == 1
  {
    RoutedDropsThen(c, rounds, timeout, period, k);
    Untouched(c, rounds[..k - 1]);
    assert rounds[..k] == rounds;
    OneUse(c, Routed(c.id, k * period - 1));
  }

  lemma SweepIs(c: Pooled, timeout: nat, period: nat, k: nat)
    requires period > 0 && k >= 1
    requires (k - 1) * period < c.pinged + timeout <= k * period
    ensures RemovalSweep(c, timeout, period) == k
  {
    var first := RemovalSweep(c, timeout, period);
    if first < k {
      Monotone(first, k - 1, period);
    } else if first > k {
      Monotone(k, first - 1, period);
    }
  }

  /** The bound is sharp: some connection is removed at the very last nanosecond. */
  lemma WorstCase(timeout: nat, period: nat) returns (c: Pooled, rounds: seq<seq<Use>>)
    requires timeout > 0 && period > 0
    ensures c.pinged >= 0 && !c.out && |rounds| == timeout + 1
    ensures forall i :: 0 <= i < |rounds| ==> rounds[i] == []
    ensures DropsAt(c, rounds, timeout, period, timeout + 1)
    ensures RecordOf(c, rounds, period, timeout + 1).age == timeout + period - 1
  {
    c := Pooled(0, timeout * (period - 1) + 1, 0, false);
    rounds := seq(timeout + 1, _ => []);
    assert timeout * (period - 1) + timeout == timeout * period;
    assert (timeout + 1) * period == timeout * period + period;
    SweepIs(c, timeout, period, timeout + 1);
    RoutedDropsThen(c, rounds, timeout, period, timeout + 1);
  }

  /** The documented upper bound for a connection dropped at sweep `k`, where a period is enough to find it. */
  ghost predicate InTime(c: Pooled, rounds: seq<seq<Use>>, timeout: nat, period: nat, k: nat)
    requires period > 0
  {
    DropsAt(c, rounds, timeout, period, k) ==>
      var t := Seen(c, rounds[..k]);
      var due := RemovalSweep(t, timeout, period);
      t.pinged + timeout > 0 && due <= k && !Seen(c, rounds[..due]).out ==>
        4 * RecordOf(c, rounds, period, k).age <= 5 * timeout
  }

  /**
    The documented bound, removal within a quarter more than the timeout, holds
    however connections are used exactly when the timeout is at least 4 s less
    4 ns; below that the one-second floor shows. It is meant for connections in
    the slots when they come to be due, and not before the sweeps begin.
   */
  lemma QuarterBound(timeout: nat)
    requires timeout > 0
    ensures (forall c: Pooled, rounds: seq<seq<Use>>, k: nat :: InTime(c, rounds, timeout, Period(timeout).value, k))
            <==> timeout >= 4 * (SECOND - 1)
  {
    var period := Period(timeout).value;
    if timeout >= 4 * (SECOND - 1) {
      forall c: Pooled, rounds: seq<seq<Use>>, k: nat ensures InTime(c, rounds, timeout, period, k) {
        if DropsAt(c, rounds, timeout, period, k) {
          AgeBounds(c, rounds, timeout, period, k);
        }
      }
    } else {
      var c, rounds := WorstCase(timeout, period);
      var k := timeout + 1;
      AgeBounds(c, rounds, timeout, period, k);
      assert 4 * RecordOf(c, rounds, period, k).age == 4 * (timeout + SECOND - 1);
      assert !InTime(c, rounds, timeout, period, k);
    }
  }
}
