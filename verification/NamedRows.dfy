/** Normalizing result rows: objects stay as they are, arrays take their names from the columns. */
module NamedRows {
  import opened Wrappers
  import opened Json
  import opened Protocol

  /** The first thing wrong with row `idx`, if anything is. */
  function Defect(columns: seq<Column>, idx: nat, row: Json): Option<DecodeError> {
    match row
    case Obj(_) => None
    case Arr(cells) =>
      if columns == [] then Some(TerseRowsWithoutColumns)
      else if |cells| > |columns| then Some(TerseRowTooLong(idx, |cells|, |columns|))
      else None
    case _ => Some(RowNotObjectOrArray(idx, row))
  }

  /** Cells paired with column names, a later column of the same name winning. */
  function Zip(columns: seq<Column>, cells: seq<Json>): Fields
    requires |cells| <= |columns|
  {
    if cells == [] then map[]
    else
      var last := |cells| - 1;
      Zip(columns, cells[..last])[columns[last].name := cells[last]]
  }

  function NamedRow(columns: seq<Column>, row: Json): Fields
    requires row.Obj? || (row.Arr? && |row.items| <= |columns|)
  {
    if row.Obj? then row.fields else Zip(columns, row.items)
  }

  function Named(columns: seq<Column>, rows: seq<Json>): Result<seq<Fields>, DecodeError> {
    NamedFrom(columns, rows, 0)
  }

  function NamedFrom(columns: seq<Column>, rows: seq<Json>, idx: nat): Result<seq<Fields>, DecodeError> {
    if rows == [] then Ok([])
    else
      match Defect(columns, idx, rows[0])
      case Some(e) => Err(e)
      case None =>
        var tail :- NamedFrom(columns, rows[1..], idx + 1);
        Ok([NamedRow(columns, rows[0])] + tail)
  }

  /** The loop the client runs: one output map per row, stopping at the first defect. */
  method NamedRowsFromWire(metadata: QueryMetaData, data: seq<Json>) returns (r: Result<seq<Fields>, DecodeError>)
    ensures r == Named(metadata.columns, data)
    ensures r.Ok? ==> |r.value| == |data|
    ensures r.Ok? ==> forall i :: 0 <= i < |data| && data[i].Obj? ==> r.value[i] == data[i].fields
  {
    var columns := metadata.columns;
    var out: seq<Fields> := [];
    for idx := 0 to |data|
      invariant |out| == idx
      invariant forall i :: 0 <= i < idx ==> Defect(columns, i, data[i]) == None && out[i] == NamedRow(columns, data[i])
    {
      match data[idx]
      case Obj(fields) =>
        out := out + [fields];
      case Arr(cells) =>
        if |columns| == 0 {
          FirstDefect(columns, data, idx);
          return Err(TerseRowsWithoutColumns);
        }
        if |cells| > |columns| {
          FirstDefect(columns, data, idx);
          return Err(TerseRowTooLong(idx, |cells|, |columns|));
        }
        var row: Fields := map[];
        for i := 0 to |cells|
          invariant row == Zip(columns, cells[..i])
        {
          row := row[columns[i].name := cells[i]];
          assert cells[..i + 1][..i] == cells[..i];
        }
        assert cells[..|cells|] == cells;
        out := out + [row];
      case _ =>
        FirstDefect(columns, data, idx);
        return Err(RowNotObjectOrArray(idx, data[idx]));
    }
    NoDefect(columns, data, out);
    return Ok(out);
  }

  lemma {:induction false} FirstDefectFrom(columns: seq<Column>, rows: seq<Json>, idx: nat, at: nat)
    requires at < |rows|
    requires forall i :: 0 <= i < at ==> Defect(columns, idx + i, rows[i]) == None
    requires Defect(columns, idx + at, rows[at]).Some?
    ensures NamedFrom(columns, rows, idx) == Err(Defect(columns, idx + at, rows[at]).value)
  {
    if at == 0 {
    } else {
      assert Defect(columns, idx + 0, rows[0]) == None;
      assert forall i :: 0 <= i < at - 1 ==> rows[1..][i] == rows[i + 1];
      FirstDefectFrom(columns, rows[1..], idx + 1, at - 1);
    }
  }

  lemma FirstDefect(columns: seq<Column>, rows: seq<Json>, at: nat)
    requires at < |rows|
    requires forall i :: 0 <= i < at ==> Defect(columns, i, rows[i]) == None
    requires Defect(columns, at, rows[at]).Some?
    ensures Named(columns, rows) == Err(Defect(columns, at, rows[at]).value)
  {
    FirstDefectFrom(columns, rows, 0, at);
  }

  lemma {:induction false} NoDefectFrom(columns: seq<Column>, rows: seq<Json>, idx: nat, out: seq<Fields>)
    requires |out| == |rows|
    requires forall i :: 0 <= i < |rows| ==>
      Defect(columns, idx + i, rows[i]) == None && out[i] == NamedRow(columns, rows[i])
    ensures NamedFrom(columns, rows, idx) == Ok(out)
  {
    if rows == [] {
    } else {
      assert Defect(columns, idx + 0, rows[0]) == None;
      assert forall i :: 0 <= i < |rows| - 1 ==> rows[1..][i] == rows[i + 1] && out[1..][i] == out[i + 1];
      NoDefectFrom(columns, rows[1..], idx + 1, out[1..]);
      assert out == [out[0]] + out[1..];
    }
  }

  lemma NoDefect(columns: seq<Column>, rows: seq<Json>, out: seq<Fields>)
    requires |out| == |rows|
    requires forall i :: 0 <= i < |rows| ==> Defect(columns, i, rows[i]) == None && out[i] == NamedRow(columns, rows[i])
    ensures Named(columns, rows) == Ok(out)
  {
    NoDefectFrom(columns, rows, 0, out);
  }

  /** Naming fails exactly when some row is malformed, and then reports the least such row. */
  lemma NamedReportsLeastDefect(columns: seq<Column>, rows: seq<Json>)
    ensures Named(columns, rows).Err? <==> exists i :: 0 <= i < |rows| && Defect(columns, i, rows[i]).Some?
    ensures Named(columns, rows).Err? ==>
      exists at :: 0 <= at < |rows| && Defect(columns, at, rows[at]) == Some(Named(columns, rows).error)
        && forall i :: 0 <= i < at ==> Defect(columns, i, rows[i]) == None
  {
    var at := 0;
    while at < |rows| && Defect(columns, at, rows[at]) == None
      invariant at <= |rows|
      invariant forall i :: 0 <= i < at ==> Defect(columns, i, rows[i]) == None
    {
      at := at + 1;
    }
    if at < |rows| {
      FirstDefect(columns, rows, at);
    } else {
      NoDefect(columns, rows, seq(|rows|, i requires 0 <= i < |rows| => NamedRow(columns, rows[i])));
    }
  }

  // ---- the array form and the object form of a result set -------------------

  predicate DistinctNames(columns: seq<Column>) {
    forall i, j :: 0 <= i < j < |columns| ==> columns[i].name != columns[j].name
  }

  /** The row's keys are the names of a prefix of the columns. */
  predicate Keyed(columns: seq<Column>, row: Fields) {
    |row| <= |columns| && row.Keys == set i | 0 <= i < |row| :: columns[i].name
  }

  /** The row's values in column order. */
  function Cells(columns: seq<Column>, row: Fields): seq<Json>
    requires Keyed(columns, row)
  {
    seq(|row|, i requires 0 <= i < |row| => assert columns[i].name in row.Keys; row[columns[i].name])
  }

  lemma {:induction false} ZipReads(columns: seq<Column>, cells: seq<Json>)
    requires DistinctNames(columns) && |cells| <= |columns|
    ensures Zip(columns, cells).Keys == set i | 0 <= i < |cells| :: columns[i].name
    ensures forall i :: 0 <= i < |cells| ==>
      columns[i].name in Zip(columns, cells) && Zip(columns, cells)[columns[i].name] == cells[i]
  {
    if cells == [] {
    } else {
      ZipReads(columns, cells[..|cells| - 1]);
    }
  }

  lemma TerseRowReadsBack(columns: seq<Column>, row: Fields)
    requires DistinctNames(columns) && Keyed(columns, row)
    ensures Zip(columns, Cells(columns, row)) == row
  {
    ZipReads(columns, Cells(columns, row));
    forall k | k in row ensures Zip(columns, Cells(columns, row))[k] == row[k] {
      assert k in row.Keys;
      var i :| 0 <= i < |row| && columns[i].name == k;
    }
  }

  function WireRow(columns: seq<Column>, row: Fields, terse: bool): Json
    requires Keyed(columns, row)
  {
    if terse then Arr(Cells(columns, row)) else Obj(row)
  }

  /**
    However the daemon mixes the two row forms, the client sees the same rows.
    The one exception is a terse row when there are no columns at all.
   */
  lemma TerseAgreesWithObjects(columns: seq<Column>, rows: seq<Fields>, terse: seq<bool>, wire: seq<Json>)
    requires DistinctNames(columns)
    requires |terse| == |rows| == |wire|
    requires forall i :: 0 <= i < |rows| ==> Keyed(columns, rows[i]) && wire[i] == WireRow(columns, rows[i], terse[i])
    ensures Named(columns, wire) == Ok(rows) <==> columns != [] || true !in terse
    ensures Named(columns, wire).Err? ==> Named(columns, wire) == Err(TerseRowsWithoutColumns)
  {
    if columns == [] && true in terse {
      NamedReportsLeastDefect(columns, wire);
      var i :| 0 <= i < |terse| && terse[i];
      assert Defect(columns, i, wire[i]).Some?;
    } else {
      forall i | 0 <= i < |rows| ensures Defect(columns, i, wire[i]) == None && rows[i] == NamedRow(columns, wire[i]) {
        TerseRowReadsBack(columns, rows[i]);
      }
      NoDefect(columns, wire, rows);
    }
  }
}
