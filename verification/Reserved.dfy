/**
  A connection held for a transaction: what its transaction state says, what dropping
  it sends, and what it does to the shared counter.
*/
module Reserved {
  import opened Wrappers
  import opened Json
  import opened Protocol
  import opened Counter
  import opened Codec
  import opened Routing
  import Dispatch
  import Dispatcher
  import DispatchInvariant
  import DispatchRefinement
  import DispatchCounter

  datatype TxState = NotStarted | Started | Closed

  // ---- the first word of a statement ----------------------------------------

  /** The characters Unicode calls white space. */
  predicate IsSpace(c: char) {
    || '\U{0009}' <= c <= '\U{000D}' || c == ' ' || c == '\U{0085}' || c == '\U{00A0}' || c == '\U{1680}'
    || '\U{2000}' <= c <= '\U{200A}' || c == '\U{2028}' || c == '\U{2029}' || c == '\U{202F}' || c == '\U{205F}' ||
      c == '\U{3000}'
  }

  function SkipSpace(s: string): string {
    if s != "" && IsSpace(s[0]) then SkipSpace(s[1..]) else s
  }

  function UntilSpace(s: string): string {
    if s == "" || IsSpace(s[0]) then "" else [s[0]] + UntilSpace(s[1..])
  }

  function FirstWord(sql: string): string {
    UntilSpace(SkipSpace(sql))
  }

  function AsciiUpper(c: char): char {
    if 'a' <= c <= 'z' then (c as int - 32) as char else c
  }

  predicate SameIgnoringCase(a: string, b: string) {
    |a| == |b| && forall i :: 0 <= i < |a| ==> AsciiUpper(a[i]) == AsciiUpper(b[i])
  }

  predicate Begins(sql: string) {
    SameIgnoringCase(FirstWord(sql), "BEGIN")
  }

  predicate Ends(sql: string) {
    SameIgnoringCase(FirstWord(sql), "COMMIT") || SameIgnoringCase(FirstWord(sql), "ROLLBACK")
  }

  function Observed(tx: TxState, sql: string): TxState {
    if Begins(sql) then Started else if Ends(sql) then TxState.Closed else tx
  }

  predicate AllSpace(s: string) {
    forall i :: 0 <= i < |s| ==> IsSpace(s[i])
  }

  predicate NoSpace(s: string) {
    forall i :: 0 <= i < |s| ==> !IsSpace(s[i])
  }

  lemma {:induction false} SkipsAll(space: string, rest: string)
    requires AllSpace(space) && (rest == "" || !IsSpace(rest[0]))
    ensures SkipSpace(space + rest) == rest
  {
    if space == "" {
      assert space + rest == rest;
    } else {
      SkipsAll(space[1..], rest);
      assert (space + rest)[1..] == space[1..] + rest;
    }
  }

  lemma {:induction false} TakesWord(word: string, rest: string)
    requires NoSpace(word) && (rest == "" || IsSpace(rest[0]))
    ensures UntilSpace(word + rest) == word
  {
    if word == "" {
      assert word + rest == rest;
    } else {
      TakesWord(word[1..], rest);
      assert (word + rest)[1..] == word[1..] + rest;
    }
  }

  /** The first word is what stands between leading white space and the next white space, whatever follows. */
  lemma FirstWordIs(space: string, word: string, rest: string)
    requires AllSpace(space) && NoSpace(word) && word != "" && (rest == "" || IsSpace(rest[0]))
    ensures FirstWord(space + word + rest) == word
  {
    assert space + word + rest == space + (word + rest);
    SkipsAll(space, word + rest);
    TakesWord(word, rest);
  }

  const WHITE_SPACE := "\t\n\U{000B}\U{000C}\r \U{0085}\U{00A0}\U{1680}\U{2000}\U{2001}\U{2002}\U{2003}\U{2004}" +
    "\U{2005}\U{2006}\U{2007}\U{2008}\U{2009}\U{200A}\U{2028}\U{2029}\U{202F}\U{205F}\U{3000}"

  lemma SpacesAre(c: char)
    ensures IsSpace(c) <==> c in WHITE_SPACE
  {
  }

  predicate Splits(sql: string, space: string, word: string, rest: string) {
    && sql == space + word + rest && word != ""
    && (forall i :: 0 <= i < |space| ==> space[i] in WHITE_SPACE)
    && (forall i :: 0 <= i < |word| ==> word[i] !in WHITE_SPACE)
    && (rest == "" || rest[0] in WHITE_SPACE)
  }

  /** `word` is the first word of the statement: it stands between white space, or the ends of the text. */
  ghost predicate Leads(sql: string, word: string) {
    exists space: string, rest: string :: Splits(sql, space, word, rest)
  }

  predicate IsBegin(w: string) {
    |w| == 5 && w[0] in "Bb" && w[1] in "Ee" && w[2] in "Gg" && w[3] in "Ii" && w[4] in "Nn"
  }

  predicate IsCommit(w: string) {
    |w| == 6 && w[0] in "Cc" && w[1] in "Oo" && w[2] in "Mm" && w[3] in "Mm" && w[4] in "Ii" && w[5] in "Tt"
  }

  predicate IsRollback(w: string) {
    && |w| == 8 && w[0] in "Rr" && w[1] in "Oo" && w[2] in "Ll" && w[3] in "Ll"
    && w[4] in "Bb" && w[5] in "Aa" && w[6] in "Cc" && w[7] in "Kk"
  }

  /** The statement's first word is BEGIN, in any case. */
  ghost predicate BeginsTx(sql: string) {
    exists word :: Leads(sql, word) && IsBegin(word)
  }

  /** The statement's first word is COMMIT or ROLLBACK, in any case. */
  ghost predicate EndsTx(sql: string) {
    exists word :: Leads(sql, word) && (IsCommit(word) || IsRollback(word))
  }

  lemma {:induction false} SkipSplits(s: string) returns (space: string)
    ensures s == space + SkipSpace(s) && AllSpace(space) && (SkipSpace(s) == "" || !IsSpace(SkipSpace(s)[0]))
  {
    if s != "" && IsSpace(s[0]) {
      space := SkipSplits(s[1..]);
      assert s == [s[0]] + s[1..];
      space := [s[0]] + space;
    } else {
      space := "";
    }
  }

  lemma {:induction false} UntilSplits(s: string) returns (rest: string)
    ensures s == UntilSpace(s) + rest && NoSpace(UntilSpace(s)) && (rest == "" || IsSpace(rest[0]))
  {
    if s == "" || IsSpace(s[0]) {
      rest := s;
    } else {
      rest := UntilSplits(s[1..]);
      assert s == [s[0]] + s[1..];
    }
  }

  lemma LeadsFrom(sql: string, space: string, word: string, rest: string)
    requires sql == space + word + rest && word != ""
    requires AllSpace(space) && NoSpace(word) && (rest == "" || IsSpace(rest[0]))
    ensures Leads(sql, word)
  {
    forall i | 0 <= i < |space| ensures space[i] in WHITE_SPACE {
      SpacesAre(space[i]);
    }
    forall i | 0 <= i < |word| ensures word[i] !in WHITE_SPACE {
      SpacesAre(word[i]);
    }
    if rest != "" {
      SpacesAre(rest[0]);
    }
    assert Splits(sql, space, word, rest);
  }

  lemma WordLeads(sql: string)
    requires FirstWord(sql) != ""
    ensures Leads(sql, FirstWord(sql))
  {
    var space := SkipSplits(sql);
    var rest := UntilSplits(SkipSpace(sql));
    assert sql == space + FirstWord(sql) + rest;
    LeadsFrom(sql, space, FirstWord(sql), rest);
  }

  lemma LeadingWord(sql: string, word: string)
    requires Leads(sql, word)
    ensures FirstWord(sql) == word
  {
    var space: string, rest: string :| Splits(sql, space, word, rest);
    forall c ensures IsSpace(c) <==> c in WHITE_SPACE {
      SpacesAre(c);
    }
    FirstWordIs(space, word, rest);
  }

  lemma WordsAre(w: string)
    ensures SameIgnoringCase(w, "BEGIN") <==> IsBegin(w)
    ensures SameIgnoringCase(w, "COMMIT") <==> IsCommit(w)
    ensures SameIgnoringCase(w, "ROLLBACK") <==> IsRollback(w)
  {
  }

  /** The test on a statement's first word means what it should. */
  lemma MarksAre(sql: string)
    ensures Begins(sql) <==> BeginsTx(sql)
    ensures Ends(sql) <==> EndsTx(sql)
  {
    var w := FirstWord(sql);
    WordsAre(w);
    forall word | Leads(sql, word) ensures word == w {
      LeadingWord(sql, word);
    }
    if Begins(sql) || Ends(sql) {
      WordLeads(sql);
    }
  }

  // ---- the history law ------------------------------------------------------

  /** One tracked call: its statement, and whether it succeeded. */
  datatype Tracked = Tracked(sql: string, ok: bool)

  function Track(tx: TxState, call: Tracked): TxState {
    if call.ok then Observed(tx, call.sql) else tx
  }

  function After(calls: seq<Tracked>): TxState {
    if calls == [] then NotStarted else Track(After(calls[..|calls| - 1]), calls[|calls| - 1])
  }

  /** Call `i` is the last successful one that begins or ends a transaction. */
  ghost predicate LastMarkAt(calls: seq<Tracked>, i: nat) {
    && i < |calls| && calls[i].ok && (Begins(calls[i].sql) || Ends(calls[i].sql))
    && forall k :: i < k < |calls| && calls[k].ok ==> !Begins(calls[k].sql) && !Ends(calls[k].sql)
  }

  lemma NotBoth(sql: string)
    ensures !(Begins(sql) && Ends(sql))
  {
    if Begins(sql) {
      var w := FirstWord(sql);
      assert |w| == 5;
    }
  }

  lemma LastMarkUnique(calls: seq<Tracked>, i: nat, j: nat)
    requires LastMarkAt(calls, i) && LastMarkAt(calls, j)
    ensures i == j
  {
  }

  lemma {:induction false} Marks(calls: seq<Tracked>) returns (i: nat)
    ensures After(calls) == NotStarted ==> forall k :: 0 <= k < |calls| && calls[k].ok ==>
      !Begins(calls[k].sql) && !Ends(calls[k].sql)
    ensures After(calls) != NotStarted ==> LastMarkAt(calls, i) && (After(calls) == Started <==> Begins(calls[i].sql))
  {
    i := 0;
    if calls == [] {
    } else {
      var init, last := calls[..|calls| - 1], calls[|calls| - 1];
      i := Marks(init);
      NotBoth(last.sql);
      if last.ok && (Begins(last.sql) || Ends(last.sql)) {
        i := |init|;
      } else if After(init) != NotStarted {
        assert calls[i] == init[i];
      }
    }
  }

  /** Call `i` is the last successful one whose statement begins or ends a transaction. */
  ghost predicate IsLastMark(calls: seq<Tracked>, i: nat) {
    && i < |calls| && calls[i].ok && (BeginsTx(calls[i].sql) || EndsTx(calls[i].sql))
    && forall k :: i < k < |calls| && calls[k].ok ==> !BeginsTx(calls[k].sql) && !EndsTx(calls[k].sql)
  }

  lemma LastMarks(calls: seq<Tracked>, i: nat)
    ensures IsLastMark(calls, i) <==> LastMarkAt(calls, i)
  {
    forall sql: string ensures (Begins(sql) <==> BeginsTx(sql)) && (Ends(sql) <==> EndsTx(sql)) {
      MarksAre(sql);
    }
  }

  /**
    Whatever tracked calls were made and whichever of them failed: the state is
    Started exactly when the last successful statement whose first word is BEGIN,
    COMMIT or ROLLBACK, in any case, says BEGIN, and NotStarted exactly when there
    is no such statement.
   */
  lemma HistoryLaw(calls: seq<Tracked>)
    ensures After(calls) == Started <==> exists i: nat :: IsLastMark(calls, i) && BeginsTx(calls[i].sql)
    ensures After(calls) == TxState.Closed <==> exists i: nat :: IsLastMark(calls, i) && EndsTx(calls[i].sql)
    ensures After(calls) == NotStarted <==>
      forall k :: 0 <= k < |calls| && calls[k].ok ==> !BeginsTx(calls[k].sql) && !EndsTx(calls[k].sql)
  {
    var i := Marks(calls);
    forall sql: string ensures (Begins(sql) <==> BeginsTx(sql)) && (Ends(sql) <==> EndsTx(sql)) {
      MarksAre(sql);
    }
    if After(calls) != NotStarted {
      LastMarks(calls, i);
      NotBoth(calls[i].sql);
      forall j: nat | IsLastMark(calls, j) ensures j == i {
        LastMarks(calls, j);
        LastMarkUnique(calls, i, j);
      }
    }
  }

  // ---- the handle -----------------------------------------------------------

  /** What dropping the handle sends. */
  function Farewell(rollbackOnDrop: bool, tx: TxState, id: string): seq<Request> {
    if rollbackOnDrop && tx == Started then [Sql(id, "ROLLBACK", None, None, None)] else []
  }

  class Reserved {
    const task: Dispatcher.Task
    const ids: IdAllocator
    var rollbackOnDrop: bool
    var txState: TxState
    ghost var calls: seq<Tracked>

    ghost predicate Valid()
      reads this
    {
      txState == After(calls)
    }

    /** Marks the connection so that routing passes over it. */
    constructor (task: Dispatcher.Task, ids: IdAllocator)
      modifies task
      ensures Valid() && this.task == task && this.ids == ids && calls == [] && !rollbackOnDrop
      ensures task.View() == Dispatch.Step(old(task.View()), Dispatch.ReservationStarted)
    {
      this.task, this.ids := task, ids;
      rollbackOnDrop, txState, calls := false, NotStarted, [];
      new;
      task.StoreCounter(true);
    }

    method SetRollbackOnDrop()
      requires Valid()
      modifies this
      ensures Valid() && rollbackOnDrop && calls == old(calls)
    {
      rollbackOnDrop := true;
    }

    method ObserveSql(sql: string)
      modifies this`txState
      ensures txState == Observed(old(txState), sql)
    {
      var head := FirstWord(sql);
      if SameIgnoringCase(head, "BEGIN") {
        txState := Started;
      } else if SameIgnoringCase(head, "COMMIT") || SameIgnoringCase(head, "ROLLBACK") {
        txState := TxState.Closed;
      }
    }

    /** A tracked call; `ok` says whether the job executed the statement successfully. */
    method Execute(sql: string, ok: bool)
      requires Valid()
      modifies this
      ensures Valid() && calls == old(calls) + [Tracked(sql, ok)] && rollbackOnDrop == old(rollbackOnDrop)
    {
      if ok {
        ObserveSql(sql);
      }
      ghost var before := calls;
      calls := calls + [Tracked(sql, ok)];
      assert calls[..|calls| - 1] == before;
    }

    /** Returns what was spawned to be sent; the counter starts again from zero. */
    method Drop() returns (spawned: seq<Request>)
      requires Valid()
      modifies ids, task
      ensures spawned == Farewell(rollbackOnDrop, After(calls), IdText(old(ids.prefix), old(ids.counter)))
      ensures spawned == [] ==> ids.counter == old(ids.counter)
      ensures task.View() == Dispatch.Step(old(task.View()), Dispatch.ReservationEnded)
    {
      spawned := [];
      if rollbackOnDrop && txState == Started {
        var id := ids.Next();
        spawned := [Sql(id, "ROLLBACK", None, None, None)];
      }
      task.StoreCounter(false);
    }
  }

  /** Dropping sends one ROLLBACK exactly when that was asked for and the last mark in the history is a BEGIN. */
  lemma FarewellLaw(rollbackOnDrop: bool, calls: seq<Tracked>, id: string)
    ensures |Farewell(rollbackOnDrop, After(calls), id)| <= 1
    ensures Farewell(rollbackOnDrop, After(calls), id) == [Sql(id, "ROLLBACK", None, None, None)] <==>
      rollbackOnDrop && exists i: nat :: IsLastMark(calls, i) && BeginsTx(calls[i].sql)
  {
    HistoryLaw(calls);
  }

  // ---- what routing sees of a held job --------------------------------------

  lemma OneMore(c: u32, n: nat, p: nat)
    requires c == Wrap(SENTINEL - p + n)
    ensures c == 0 <==> (n - p - 1) % MODULUS == 0
  {
    WrapIsMod(SENTINEL - p + n);
    assert SENTINEL - p + n == MODULUS + (n - p - 1);
  }

  /**
    A held job stays invisible to both scans exactly while as many requests are
    outstanding as when it was reserved, modulo 2^32; with one more than that it
    even looks idle.
   */
  lemma HeldJobVisibility(s: Dispatch.State, r: Dispatch.State, events: seq<Dispatch.Event>, t: Dispatch.State,
    strong: nat)
    requires DispatchInvariant.Inv(s) && r == Dispatch.Step(s, Dispatch.ReservationStarted) &&
      DispatchCounter.Quiet(events)
    requires forall i :: 0 <= i < |events| ==> DispatchCounter.Drains(events[i])
    requires t == Dispatch.Run(r, events) && DispatchRefinement.DistinctIds(t.history) && strong > 0
    ensures
      && (Routable(Slot(strong, t.inFlight)) <==> (|t.pending| - |s.pending|) % MODULUS != 0)
      && (LooksIdle(Slot(1, t.inFlight)) <==> (|t.pending| - |s.pending| - 1) % MODULUS == 0)
  {
    DispatchCounter.SentinelLaw(s, r, events, t);
    OneMore(t.inFlight, |t.pending|, |s.pending|);
  }

  lemma Hidden(c: u32, n: nat, p: nat, strong: nat)
    requires c == Wrap(0 - p + n) && strong > 0
    ensures Routable(Slot(strong, c)) <==> (n - p + 1) % MODULUS != 0
  {
    WrapIsMod(0 - p + n);
  }

  /**
    After the handle is dropped the count is exact again if nothing was
    outstanding then; with one request outstanding, the job disappears from
    both scans once that request is answered.
   */
  lemma ReleasedJobVisibility(s: Dispatch.State, r: Dispatch.State, events: seq<Dispatch.Event>, t: Dispatch.State,
    strong: nat)
    requires DispatchInvariant.Inv(s) && r == Dispatch.Step(s, Dispatch.ReservationEnded) &&
      DispatchCounter.Quiet(events)
    requires forall i :: 0 <= i < |events| ==> DispatchCounter.Drains(events[i])
    requires t == Dispatch.Run(r, events) && DispatchRefinement.DistinctIds(t.history) && strong > 0
    ensures
      && (t.inFlight == Wrap(|t.pending|) <==> |s.pending| % MODULUS == 0)
      && (Routable(Slot(strong, t.inFlight)) <==> (|t.pending| - |s.pending| + 1) % MODULUS != 0)
  {
    var n, p := |t.pending|, |s.pending|;
    DispatchCounter.ReleaseLaw(s, r, events, t);
    Hidden(t.inFlight, n, p, strong);
  }

  /**
    The case arises on every statement: wherever a connection with nothing
    outstanding is reserved, the idle scan takes the job for free while its
    first request waits for the reply.
   */
  lemma HeldJobIsPicked(s: Dispatch.State, request: Request)
    requires s.running && s.queue == [] && s.pending == map[]
    ensures var t := Dispatch.Step(Dispatch.Step(Dispatch.Step(s,
      Dispatch.ReservationStarted), Dispatch.Submitted(request)), Dispatch.Written);
      request.id in t.pending && FirstIdle([Slot(1, t.inFlight)]) == Some(0)
  {
    var u := Dispatch.Submit(Dispatch.Step(s, Dispatch.ReservationStarted), request);
    assert u.queue[0].id == request.id && u.inFlight == SENTINEL;
  }
}
