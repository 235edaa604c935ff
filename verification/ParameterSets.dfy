/**
  The wire shape of `prepare_sql_execute.parameters`: one set travels as a flat
  array of values, any other number of sets as an array of arrays.
 */
module ParameterSets {
  import opened Wrappers
  import opened Json

  function Nested(sets: seq<seq<Json>>): seq<Json> {
    seq(|sets|, i requires 0 <= i < |sets| => Arr(sets[i]))
  }

  function Serialize(sets: Option<seq<seq<Json>>>): Json {
    match sets
    case None => Null
    case Some(s) => if |s| == 1 then Arr(s[0]) else Arr(Nested(s))
  }

  predicate AllArrays(items: seq<Json>) {
    forall i :: 0 <= i < |items| ==> items[i].Arr?
  }

  function Inner(items: seq<Json>): seq<seq<Json>>
    requires AllArrays(items)
  {
    seq(|items|, i requires 0 <= i < |items| => items[i].items)
  }

  /** `Err` when the field is neither absent, `null` nor an array. */
  function Deserialize(v: Json): Result<Option<seq<seq<Json>>>, ()> {
    match v
    case Null => Ok(None)
    case Arr(items) =>
      if AllArrays(items) then Ok(Some(Inner(items)))
      else Ok(Some([items]))
    case _ => Err(())
  }

  /** A set that the flat form can carry: it holds some value that is not an array. */
  predicate Plain(set_: seq<Json>) {
    exists i :: 0 <= i < |set_| && !set_[i].Arr?
  }

  lemma NestedReadsBack(sets: seq<seq<Json>>)
    ensures Deserialize(Arr(Nested(sets))) == Ok(Some(sets))
  {
    var items := Nested(sets);
    assert Inner(items) == sets;
  }

  /** A single set of arrays comes back as those arrays, which is never the set itself. */
  lemma FlatSetOfArraysIsLost(only: seq<Json>)
    requires !Plain(only)
    ensures Deserialize(Serialize(Some([only]))) == Ok(Some(Inner(only)))
    ensures Inner(only) != [only]
  {
  }

  /** Sets survive the wire exactly unless there is one set and it is empty or made of arrays alone. */
  lemma RoundTripBoundary(sets: seq<seq<Json>>)
    ensures Deserialize(Serialize(Some(sets))) == Ok(Some(sets)) <==> |sets| != 1 || Plain(sets[0])
    ensures Deserialize(Serialize(None)) == Ok(None)
  {
    if |sets| != 1 {
      NestedReadsBack(sets);
    } else {
      assert sets == [sets[0]];
      if !Plain(sets[0]) {
        FlatSetOfArraysIsLost(sets[0]);
      }
    }
  }

  /**
    One set is written as a flat array, plain or not, although the flat and the
    nested form mean the same exactly when the set is plain.
   */
  lemma FlatAndNestedAgree(only: seq<Json>)
    ensures Serialize(Some([only])) == Arr(only)
    ensures Deserialize(Arr(only)) == Deserialize(Arr([Arr(only)])) <==> Plain(only)
  {
    assert Nested([only]) == [Arr(only)];
    NestedReadsBack([only]);
    if !Plain(only) {
      FlatSetOfArraysIsLost(only);
    }
  }

  /** No two different batches that round-trip share a wire form. */
  lemma SerializeInjectiveOnPlain(a: seq<seq<Json>>, b: seq<seq<Json>>)
    requires |a| != 1 || Plain(a[0])
    requires |b| != 1 || Plain(b[0])
    requires Serialize(Some(a)) == Serialize(Some(b))
    ensures a == b
  {
    RoundTripBoundary(a);
    RoundTripBoundary(b);
  }
}
