/** Nested records spelled as arrays of their fields. */
module Positions {
  import opened Wrappers
  import opened Json
  import opened Protocol
  import opened Decode

  lemma {:induction false} Positions(items: seq<Json>, names: seq<string>, i: nat)
    requires i < |items| <= |names| && forall j, k :: 0 <= j < k < |names| ==> names[j] != names[k]
    ensures Get(ByPosition(items, names), names[i]) == Some(items[i])
  {
    if i == 0 {
    } else {
      assert names[1..][i - 1] == names[i] && items[1..][i - 1] == items[i];
      Positions(items[1..], names[1..], i - 1);
    }
  }

  lemma {:induction false} PastEnd(items: seq<Json>, names: seq<string>, k: string)
    requires |items| <= |names| && k !in names[..|items|]
    ensures Get(ByPosition(items, names), k) == None
  {
    if items == [] {
    } else {
      assert names[..|items|] == [names[0]] + names[1..][..|items| - 1];
      PastEnd(items[1..], names[1..], k);
    }
  }

  predicate DistinctNames(names: seq<string>) {
    forall i, j :: 0 <= i < j < |names| ==> names[i] != names[j]
  }

  /** `m` holds each item under the name at its place, and nothing under the names that are left over. */
  predicate Spells(m: Fields, items: seq<Json>, names: seq<string>) {
    && |items| <= |names|
    && forall i :: 0 <= i < |names| ==> Get(m, names[i]) == if i < |items| then Some(items[i]) else None
  }

  lemma ByPositionSpells(items: seq<Json>, names: seq<string>)
    requires |items| <= |names| && DistinctNames(names)
    ensures Spells(ByPosition(items, names), items, names)
  {
    forall i | 0 <= i < |names|
      ensures Get(ByPosition(items, names), names[i]) == if i < |items| then Some(items[i]) else None
    {
      if i < |items| {
        Positions(items, names, i);
      } else {
        PastEnd(items, names, names[i]);
      }
    }
  }

  const COLUMN := ["name", "label", "type", "display_size", "precision", "scale"]
  const PARAMETER_DETAIL := ["type", "mode", "precision", "scale", "name"]
  const PARAMETER_RESULT := ["index", "type", "precision", "scale", "name", "ccsid", "value"]
  const META_DATA := ["column_count", "columns", "job", "parameters"]
  const CL_MESSAGE := ["id", "type", "text"]

  lemma NamesAreDistinct()
    ensures DistinctNames(COLUMN) && DistinctNames(PARAMETER_DETAIL) && DistinctNames(PARAMETER_RESULT)
    ensures DistinctNames(META_DATA) && DistinctNames(CL_MESSAGE)
  {
  }

  lemma ReadsByPosition(items: seq<Json>, names: seq<string>, m: Fields)
    requires names in [COLUMN, PARAMETER_DETAIL, PARAMETER_RESULT, META_DATA, CL_MESSAGE] && Spells(m, items, names)
    ensures forall i: nat :: i < |names| ==> Get(ByPosition(items, names), names[i]) == Get(m, names[i])
  {
    NamesAreDistinct();
    ByPositionSpells(items, names);
  }

  /** An array means the record with its items as the fields in order; fields left over are missing. */
  lemma ColumnByPosition(items: seq<Json>, m: Fields)
    requires Spells(m, items, COLUMN)
    ensures AsColumn(Arr(items)) == AsColumn(Obj(m))
  {
    var n := ByPosition(items, COLUMN);
    ReadsByPosition(items, COLUMN, m);
    assert Get(n, COLUMN[0]) == Get(m, COLUMN[0]) && Get(n, COLUMN[1]) == Get(m, COLUMN[1]);
    assert Get(n, COLUMN[2]) == Get(m, COLUMN[2]) && Get(n, COLUMN[3]) == Get(m, COLUMN[3]);
    assert Get(n, COLUMN[4]) == Get(m, COLUMN[4]) && Get(n, COLUMN[5]) == Get(m, COLUMN[5]);
    ColumnLocal(n, m);
  }

  lemma ColumnLocal(n: Fields, m: Fields)
    requires Get(n, "name") == Get(m, "name") && Get(n, "label") == Get(m, "label")
    requires Get(n, "type") == Get(m, "type") && Get(n, "display_size") == Get(m, "display_size")
    requires Get(n, "precision") == Get(m, "precision") && Get(n, "scale") == Get(m, "scale")
    ensures AsColumn(Obj(n)) == AsColumn(Obj(m))
  {
  }

  lemma ParameterDetailByPosition(items: seq<Json>, m: Fields)
    requires Spells(m, items, PARAMETER_DETAIL)
    ensures AsParameterDetail(Arr(items)) == AsParameterDetail(Obj(m))
  {
    var n := ByPosition(items, PARAMETER_DETAIL);
    ReadsByPosition(items, PARAMETER_DETAIL, m);
    assert Get(n, PARAMETER_DETAIL[0]) == Get(m, PARAMETER_DETAIL[0]);
    assert Get(n, PARAMETER_DETAIL[1]) == Get(m, PARAMETER_DETAIL[1]);
    assert Get(n, PARAMETER_DETAIL[2]) == Get(m, PARAMETER_DETAIL[2]);
    assert Get(n, PARAMETER_DETAIL[3]) == Get(m, PARAMETER_DETAIL[3]);
    assert Get(n, PARAMETER_DETAIL[4]) == Get(m, PARAMETER_DETAIL[4]);
    ParameterDetailLocal(n, m);
  }

  lemma ParameterDetailLocal(n: Fields, m: Fields)
    requires Get(n, "type") == Get(m, "type") && Get(n, "mode") == Get(m, "mode")
    requires Get(n, "precision") == Get(m, "precision") && Get(n, "scale") == Get(m, "scale")
    requires Get(n, "name") == Get(m, "name")
    ensures AsParameterDetail(Obj(n)) == AsParameterDetail(Obj(m))
  {
  }

  lemma ParameterResultByPosition(items: seq<Json>, m: Fields)
    requires Spells(m, items, PARAMETER_RESULT)
    ensures AsParameterResult(Arr(items)) == AsParameterResult(Obj(m))
  {
    var n := ByPosition(items, PARAMETER_RESULT);
    ReadsByPosition(items, PARAMETER_RESULT, m);
    assert Get(n, PARAMETER_RESULT[0]) == Get(m, PARAMETER_RESULT[0]);
    assert Get(n, PARAMETER_RESULT[1]) == Get(m, PARAMETER_RESULT[1]);
    assert Get(n, PARAMETER_RESULT[2]) == Get(m, PARAMETER_RESULT[2]);
    assert Get(n, PARAMETER_RESULT[3]) == Get(m, PARAMETER_RESULT[3]);
    assert Get(n, PARAMETER_RESULT[4]) == Get(m, PARAMETER_RESULT[4]);
    assert Get(n, PARAMETER_RESULT[5]) == Get(m, PARAMETER_RESULT[5]);
    assert Get(n, PARAMETER_RESULT[6]) == Get(m, PARAMETER_RESULT[6]);
    ParameterResultLocal(n, m);
  }

  lemma ParameterResultLocal(n: Fields, m: Fields)
    requires Get(n, "index") == Get(m, "index") && Get(n, "type") == Get(m, "type")
    requires Get(n, "precision") == Get(m, "precision") && Get(n, "scale") == Get(m, "scale")
    requires Get(n, "name") == Get(m, "name") && Get(n, "ccsid") == Get(m, "ccsid")
    requires Get(n, "value") == Get(m, "value")
    ensures AsParameterResult(Obj(n)) == AsParameterResult(Obj(m))
  {
    SameDefault(n, m, "index", AsU32, 0);
    SameDefault(n, m, "type", AsString, "");
    SameDefault(n, m, "precision", AsU32, 0);
    SameDefault(n, m, "name", AsString, "");
    SameOptional(n, m, "scale", AsU32);
    SameOptional(n, m, "ccsid", AsU32);
    SameOptional(n, m, "value", AsValue);
  }

  lemma SameDefault<T>(n: Fields, m: Fields, k: string, read: Json -> Result<T, DecodeError>, default: T)
    requires Get(n, k) == Get(m, k)
    ensures Defaulted(n, k, read, default) == Defaulted(m, k, read, default)
  {
  }

  lemma SameOptional<T>(n: Fields, m: Fields, k: string, read: Json -> Result<T, DecodeError>)
    requires Get(n, k) == Get(m, k)
    ensures Optional(n, k, read) == Optional(m, k, read)
  {
  }

  lemma MetaDataByPosition(items: seq<Json>, m: Fields)
    requires Spells(m, items, META_DATA)
    ensures AsMetaData(Arr(items)) == AsMetaData(Obj(m))
  {
    var n := ByPosition(items, META_DATA);
    ReadsByPosition(items, META_DATA, m);
    assert Get(n, META_DATA[0]) == Get(m, META_DATA[0]) && Get(n, META_DATA[1]) == Get(m, META_DATA[1]);
    assert Get(n, META_DATA[2]) == Get(m, META_DATA[2]) && Get(n, META_DATA[3]) == Get(m, META_DATA[3]);
    MetaDataLocal(n, m);
  }

  lemma MetaDataLocal(n: Fields, m: Fields)
    requires Get(n, "column_count") == Get(m, "column_count") && Get(n, "columns") == Get(m, "columns")
    requires Get(n, "job") == Get(m, "job") && Get(n, "parameters") == Get(m, "parameters")
    ensures AsMetaData(Obj(n)) == AsMetaData(Obj(m))
  {
  }

  lemma ClMessageByPosition(items: seq<Json>, m: Fields)
    requires Spells(m, items, CL_MESSAGE)
    ensures AsClMessage(Arr(items)) == AsClMessage(Obj(m))
  {
    var n := ByPosition(items, CL_MESSAGE);
    ReadsByPosition(items, CL_MESSAGE, m);
    assert Get(n, CL_MESSAGE[0]) == Get(m, CL_MESSAGE[0]) && Get(n, CL_MESSAGE[1]) == Get(m, CL_MESSAGE[1]);
    assert Get(n, CL_MESSAGE[2]) == Get(m, CL_MESSAGE[2]);
    ClMessageLocal(n, m);
  }

  lemma ClMessageLocal(n: Fields, m: Fields)
    requires Get(n, "id") == Get(m, "id") && Get(n, "type") == Get(m, "type")
    requires Get(n, "text") == Get(m, "text")
    ensures AsClMessage(Obj(n)) == AsClMessage(Obj(m))
  {
  }

  /** And one with too many items is no record. */
  lemma TooManyFail(items: seq<Json>)
    ensures |items| > 6 ==> AsColumn(Arr(items)).Err?
    ensures |items| > 5 ==> AsParameterDetail(Arr(items)).Err?
    ensures |items| > 7 ==> AsParameterResult(Arr(items)).Err?
    ensures |items| > 4 ==> AsMetaData(Arr(items)).Err?
    ensures |items| > 3 ==> AsClMessage(Arr(items)).Err?
  {
  }
}
