/** The spreadsheet helpers of the classification run: the empty-value test,
    reading one column of a data frame, adding the three result columns to a
    data frame, and appending the results to the worksheet of the original
    file. Loading and saving files are left to the caller. */
module ExcelHandler {
  import opened Wrappers
  import opened PyText
  import opened Cells
  import opened Sheets
  import opened JsonValues

  /** The three result columns, in order. */
  const NewHeaders: seq<string> := ["불량명", "설비명", "조치내용"]

  /** The header row and the first data row of the result columns. */
  const HeaderRow := 3
  const DataStartRow := 4

  // ---------------------------------------------------------------------
  // is_empty_value

  /** `is_empty_value`: `None`, or a string that strips to nothing. */
  function IsEmptyValue(v: Value): bool {
    if v.Null? then true
    else if v.Str? && Strip(v.s) == "" then true
    else false
  }

  /** A value is empty exactly when it is `None` or a string of white space
      only; numbers (0 included) and booleans never are. */
  lemma {:induction false} IsEmptyValueIff(v: Value)
    ensures IsEmptyValue(v) <==> v.Null? || (v.Str? && AllSpace(v.s))
    ensures v.Int? || v.Bool? ==> !IsEmptyValue(v)
  {
    if v.Str? {
      StripEmptyIff(v.s);
    }
  }

  // ---------------------------------------------------------------------
  // Data frames

  /** A named column of a data frame. */
  datatype Series = Series(name: string, values: seq<Value>)

  /** A polars data frame: its columns in order. */
  datatype DataFrame = DataFrame(columns: seq<Series>)

  function Height(df: DataFrame): nat {
    if df.columns == [] then 0 else |df.columns[0].values|
  }

  /** Column names are distinct and all columns have the same length. */
  predicate FrameValid(df: DataFrame) {
    && (forall i, j :: 0 <= i < j < |df.columns| ==> df.columns[i].name != df.columns[j].name)
    && (forall i :: 0 <= i < |df.columns| ==> |df.columns[i].values| == Height(df))
  }

  /** `name in df.columns`. */
  predicate HasColumn(df: DataFrame, name: string) {
    exists i :: 0 <= i < |df.columns| && df.columns[i].name == name
  }

  /** The position of the first column called `name`. */
  function ColumnIndex(columns: seq<Series>, name: string): (i: nat)
    requires exists i :: 0 <= i < |columns| && columns[i].name == name
    ensures i < |columns| && columns[i].name == name
    ensures forall k :: 0 <= k < i ==> columns[k].name != name
  {
    if columns[0].name == name then 0
    else
      assert exists i :: 0 <= i < |columns[1..]| && columns[1..][i].name == name by {
        var i :| 0 <= i < |columns| && columns[i].name == name;
        assert columns[1..][i - 1].name == name;
      }
      1 + ColumnIndex(columns[1..], name)
  }

  /** `get_column_values`: the values of the named column, in row order;
      `None` where it raises `ValueError` because there is no such column. */
  function GetColumnValues(df: DataFrame, name: string): (r: Option<seq<Value>>)
    ensures r.None? <==> !HasColumn(df, name)
    ensures r.Some? ==> exists i :: 0 <= i < |df.columns| && df.columns[i].name == name && df.columns[i].values == r.value
    ensures r.Some? && FrameValid(df) ==> |r.value| == Height(df)
  {
    if HasColumn(df, name) then Some(df.columns[ColumnIndex(df.columns, name)].values) else None
  }

  /** In a valid frame the values returned are those of the only column of
      that name, in the same order and number. */
  lemma {:induction false} GetColumnValuesUnique(df: DataFrame, name: string, i: nat)
    requires FrameValid(df) && i < |df.columns| && df.columns[i].name == name
    ensures GetColumnValues(df, name) == Some(df.columns[i].values)
  {
  }

  /** `record.get(key, "")` as a cell value, for every record; `None` where
      a record is not a dictionary or a value cannot go into a column of
      cells. */
  function FieldColumn(classifications: seq<Json>, key: string): (r: Option<seq<Value>>)
    ensures r.Some? ==> |r.value| == |classifications|
    ensures r.Some? <==> forall i :: 0 <= i < |classifications| ==> FieldCell(classifications[i], key).Some?
    ensures r.Some? ==> forall i :: 0 <= i < |classifications| ==> r.value[i] == FieldCell(classifications[i], key).value
  {
    if classifications == [] then Some([])
    else
      var rest := FieldColumn(classifications[1..], key);
      var first := FieldCell(classifications[0], key);
      assert forall i :: 1 <= i < |classifications| ==> classifications[i] == classifications[1..][i - 1];
      if first.None? || rest.None? then None else Some([first.value] + rest.value)
  }

  /** `record.get(key, "")` as a cell value. */
  function FieldCell(record: Json, key: string): (r: Option<Value>)
    ensures record.JObject? && key !in record.fields ==> r == Some(Str(""))
    ensures r.Some? ==> record.JObject?
  {
    match GetOr(record, key, JString(""))
    case None => None
    case Some(v) => ToCell(v)
  }

  /** `df.with_columns([series])` for one series: a column of the same name
      is replaced where it stands, otherwise the series is appended. */
  function WithColumn(df: DataFrame, s: Series): (r: DataFrame)
    ensures HasColumn(df, s.name) ==> |r.columns| == |df.columns|
    ensures !HasColumn(df, s.name) ==> r.columns == df.columns + [s]
    ensures forall i :: 0 <= i < |df.columns| && df.columns[i].name != s.name ==> r.columns[i] == df.columns[i]
    ensures HasColumn(df, s.name) ==> r.columns[ColumnIndex(df.columns, s.name)] == s
    ensures HasColumn(r, s.name)
  {
    if HasColumn(df, s.name) then
      var i := ColumnIndex(df.columns, s.name);
      assert df.columns[i := s][i].name == s.name;
      DataFrame(df.columns[i := s])
    else
      assert (df.columns + [s])[|df.columns|].name == s.name;
      DataFrame(df.columns + [s])
  }

  /** `add_classification_columns`: the three result columns built from the
      records' fields; `None` where building them raises (a record that is
      not a dictionary, a field that is not a cell value, or a length that
      does not match a frame that already has columns). */
  function AddClassificationColumns(df: DataFrame, classifications: seq<Json>): Option<DataFrame>
  {
    var first := FieldColumn(classifications, NewHeaders[0]);
    var second := FieldColumn(classifications, NewHeaders[1]);
    var third := FieldColumn(classifications, NewHeaders[2]);
    if first.None? || second.None? || third.None? then None
    else if df.columns != [] && |classifications| != Height(df) then None
    else
      Some(WithColumn(WithColumn(WithColumn(df, Series(NewHeaders[0], first.value)),
                                 Series(NewHeaders[1], second.value)),
                      Series(NewHeaders[2], third.value)))
  }

  /** The three result headers are distinct. */
  lemma {:induction false} NewHeadersDistinct()
    ensures NewHeaders[0] != NewHeaders[1] && NewHeaders[1] != NewHeaders[2] && NewHeaders[0] != NewHeaders[2]
  {
    assert NewHeaders[0][0] == '불' && NewHeaders[1][0] == '설' && NewHeaders[2][0] == '조';
  }

  /** After adding the columns, the `k`-th result column holds the `k`-th
      field of every record, in record order ("" where a key is missing);
      every other column is read back as before. */
  lemma {:induction false} AddThenGet(df: DataFrame, classifications: seq<Json>, name: string)
    requires FrameValid(df)
    requires AddClassificationColumns(df, classifications).Some?
    ensures var r := AddClassificationColumns(df, classifications).value;
      && GetColumnValues(r, NewHeaders[0]) == FieldColumn(classifications, NewHeaders[0])
      && GetColumnValues(r, NewHeaders[1]) == FieldColumn(classifications, NewHeaders[1])
      && GetColumnValues(r, NewHeaders[2]) == FieldColumn(classifications, NewHeaders[2])
      && (name !in NewHeaders ==> GetColumnValues(r, name) == GetColumnValues(df, name))
  {
    NewHeadersDistinct();
    ThreeColumnsGet(df, Series(NewHeaders[0], FieldColumn(classifications, NewHeaders[0]).value),
                    Series(NewHeaders[1], FieldColumn(classifications, NewHeaders[1]).value),
                    Series(NewHeaders[2], FieldColumn(classifications, NewHeaders[2]).value), name);
  }

  /** Three `WithColumn` steps with distinct names: each name reads back its
      series, any other name its old values. */
  lemma {:induction false} ThreeColumnsGet(df: DataFrame, s0: Series, s1: Series, s2: Series, name: string)
    requires FrameValid(df) && s0.name != s1.name && s1.name != s2.name && s0.name != s2.name
    requires |s0.values| == |s1.values| == |s2.values|
    requires df.columns == [] || |s0.values| == Height(df)
    ensures var r := WithColumn(WithColumn(WithColumn(df, s0), s1), s2);
      && GetColumnValues(r, s0.name) == Some(s0.values)
      && GetColumnValues(r, s1.name) == Some(s1.values)
      && GetColumnValues(r, s2.name) == Some(s2.values)
      && (name != s0.name && name != s1.name && name != s2.name ==> GetColumnValues(r, name) == GetColumnValues(df, name))
  {
    var d1 := WithColumn(df, s0);
    var d2 := WithColumn(d1, s1);
    WithColumnValid(df, s0);
    WithColumnValid(d1, s1);
    WithColumnGet(df, s0, name);
    WithColumnGet(d1, s1, s0.name);
    WithColumnGet(d1, s1, name);
    WithColumnGet(d2, s2, s0.name);
    WithColumnGet(d2, s2, s1.name);
    WithColumnGet(d2, s2, name);
  }

  /** Adding a column of the frame's length to a valid frame keeps it valid. */
  lemma {:induction false} WithColumnValid(df: DataFrame, s: Series)
    requires FrameValid(df) && (df.columns == [] || |s.values| == Height(df))
    ensures FrameValid(WithColumn(df, s)) && Height(WithColumn(df, s)) == |s.values|
  {
    var r := WithColumn(df, s);
    if HasColumn(df, s.name) {
      var i := ColumnIndex(df.columns, s.name);
      assert r.columns == df.columns[i := s];
    }
  }

  /** Reading a column after `WithColumn`: the new series under its name,
      the old values under any other name. */
  lemma {:induction false} WithColumnGet(df: DataFrame, s: Series, name: string)
    requires FrameValid(df) && (df.columns == [] || |s.values| == Height(df))
    ensures GetColumnValues(WithColumn(df, s), s.name) == Some(s.values)
    ensures name != s.name ==> GetColumnValues(WithColumn(df, s), name) == GetColumnValues(df, name)
  {
    var r := WithColumn(df, s);
    WithColumnValid(df, s);
    var j := ColumnIndex(r.columns, s.name);
    GetColumnValuesUnique(r, s.name, j);
    if name != s.name && HasColumn(df, name) {
      var i := ColumnIndex(df.columns, name);
      assert r.columns[i] == df.columns[i];
      GetColumnValuesUnique(r, name, i);
    }
    if name != s.name && HasColumn(r, name) {
      var i := ColumnIndex(r.columns, name);
      if i < |df.columns| {
        assert HasColumn(df, name) by {
          if HasColumn(df, s.name) {
            assert df.columns[i].name == name;
          } else {
            assert df.columns[i] == r.columns[i];
          }
        }
      }
    }
  }

  /** The frame keeps its existing columns in place (a result column of the
      same name is replaced) and has one row per record. */
  lemma {:induction false} AddKeepsColumns(df: DataFrame, classifications: seq<Json>)
    requires FrameValid(df)
    requires AddClassificationColumns(df, classifications).Some?
    ensures var r := AddClassificationColumns(df, classifications).value;
      && FrameValid(r) && Height(r) == |classifications|
      && |r.columns| >= |df.columns|
      && forall i :: 0 <= i < |df.columns| && df.columns[i].name !in NewHeaders ==> r.columns[i] == df.columns[i]
  {
    var d1 := WithColumn(df, Series(NewHeaders[0], FieldColumn(classifications, NewHeaders[0]).value));
    var d2 := WithColumn(d1, Series(NewHeaders[1], FieldColumn(classifications, NewHeaders[1]).value));
    WithColumnValid(df, Series(NewHeaders[0], FieldColumn(classifications, NewHeaders[0]).value));
    WithColumnValid(d1, Series(NewHeaders[1], FieldColumn(classifications, NewHeaders[1]).value));
    WithColumnValid(d2, Series(NewHeaders[2], FieldColumn(classifications, NewHeaders[2]).value));
  }

  // ---------------------------------------------------------------------
  // append_results_to_file

  /** A record's row: its three fields as cell values; `None` where writing
      it raises (the record is not a dictionary, or a field is not a cell
      value). */
  function RecordRow(record: Json): (r: Option<seq<Value>>)
    ensures r.Some? <==> FieldCell(record, NewHeaders[0]).Some? && FieldCell(record, NewHeaders[1]).Some? && FieldCell(record, NewHeaders[2]).Some?
    ensures r.Some? ==> r.value == [FieldCell(record, NewHeaders[0]).value, FieldCell(record, NewHeaders[1]).value, FieldCell(record, NewHeaders[2]).value]
  {
    var a := FieldCell(record, NewHeaders[0]);
    var b := FieldCell(record, NewHeaders[1]);
    var c := FieldCell(record, NewHeaders[2]);
    if a.Some? && b.Some? && c.Some? then Some([a.value, b.value, c.value]) else None
  }

  /** The rows of all records, or the first record whose row raises. */
  datatype RowsOutcome = AllRows(rows: seq<seq<Value>>) | BadRecord(index: nat)

  function RowsOf(classifications: seq<Json>): (r: RowsOutcome)
    ensures r.AllRows? ==> |r.rows| == |classifications|
    ensures r.AllRows? ==> forall i :: 0 <= i < |classifications| ==> RecordRow(classifications[i]) == Some(r.rows[i])
    ensures r.BadRecord? ==> r.index < |classifications| && RecordRow(classifications[r.index]).None?
    ensures r.BadRecord? ==> forall i :: 0 <= i < r.index ==> RecordRow(classifications[i]).Some?
  {
    if classifications == [] then AllRows([])
    else
      var first := RecordRow(classifications[0]);
      var rest := RowsOf(classifications[1..]);
      assert forall i :: 1 <= i < |classifications| ==> classifications[i] == classifications[1..][i - 1];
      if first.None? then BadRecord(0)
      else if rest.BadRecord? then BadRecord(rest.index + 1)
      else AllRows([first.value] + rest.rows)
  }

  /** Building the result columns fails exactly where writing the rows
      does: on a record that is not a dictionary or has a field that is not a
      cell value; a frame that already has columns also needs one record per
      row. */
  lemma {:induction false} AddClassificationColumnsSucceedsIff(df: DataFrame, classifications: seq<Json>)
    ensures AddClassificationColumns(df, classifications).Some? <==>
      RowsOf(classifications).AllRows? && (df.columns == [] || |classifications| == Height(df))
  {
    FieldColumnsExist(classifications);
  }

  /** The three result columns can all be built exactly when every record
      has a row. */
  lemma {:induction false} FieldColumnsExist(classifications: seq<Json>)
    ensures && FieldColumn(classifications, NewHeaders[0]).Some?
            && FieldColumn(classifications, NewHeaders[1]).Some?
            && FieldColumn(classifications, NewHeaders[2]).Some?
        <==> RowsOf(classifications).AllRows?
  {
    var r := RowsOf(classifications);
    if r.BadRecord? {
      var bad := classifications[r.index];
      if FieldCell(bad, NewHeaders[0]).None? {
        assert FieldColumn(classifications, NewHeaders[0]).None?;
      } else if FieldCell(bad, NewHeaders[1]).None? {
        assert FieldColumn(classifications, NewHeaders[1]).None?;
      } else {
        assert FieldColumn(classifications, NewHeaders[2]).None?;
      }
    } else {
      forall i | 0 <= i < |classifications|
        ensures && FieldCell(classifications[i], NewHeaders[0]).Some?
                && FieldCell(classifications[i], NewHeaders[1]).Some?
                && FieldCell(classifications[i], NewHeaders[2]).Some?
      {
        assert RecordRow(classifications[i]).Some?;
      }
    }
  }

  /** The result block: the header row and one row per record, in the three
      columns from `startCol` on. */
  predicate InBlock(c: Cell, startCol: int, records: nat) {
    && startCol <= c.col < startCol + 3
    && (c.row == HeaderRow || DataStartRow <= c.row < DataStartRow + records)
  }

  /** The cells `m` are the cells `m0` with the result block written from
      `startCol` on: the headers in row 3, row `i` of `rows` in row 4 + i
      (each value as a cell stores it), and every cell outside the block as
      it was. */
  ghost predicate AppendedFrom(m0: map<Cell, Value>, m: map<Cell, Value>, startCol: int, rows: seq<seq<Value>>)
  {
    && (forall c :: c in m <==> c in m0 || InBlock(c, startCol, |rows|))
    && Get(m, Cell(HeaderRow, startCol)) == Str(NewHeaders[0])
    && Get(m, Cell(HeaderRow, startCol + 1)) == Str(NewHeaders[1])
    && Get(m, Cell(HeaderRow, startCol + 2)) == Str(NewHeaders[2])
    && (forall i, k :: 0 <= i < |rows| && 0 <= k < 3 && k < |rows[i]| ==> Get(m, Cell(DataStartRow + i, startCol + k)) == Stored(rows[i][k]))
    && (forall c :: !InBlock(c, startCol, |rows|) ==> Get(m, c) == Get(m0, c))
  }

  /** Every merged range of a valid sheet lies left of the first column
      after `max_column`. */
  lemma {:induction false} MergedLeftOfNewColumns(ws: Worksheet)
    requires ws.Valid()
    ensures forall r :: r in ws.merged ==> r.maxCol <= MaxColumnOf(ws.cells.Keys)
  {
    forall r | r in ws.merged
      ensures r.maxCol <= MaxColumnOf(ws.cells.Keys)
    {
      assert r.Covers(Cell(r.minRow, r.maxCol));
    }
  }

  /** The cells `m` are the cells `m0` with `values` written into row `row`
      from `startCol` on, as cells store them, and nothing else changed. */
  ghost predicate RowHolds(m0: map<Cell, Value>, m: map<Cell, Value>, row: int, startCol: int, values: seq<Value>)
  {
    && (forall c :: c in m <==> c in m0 || (c.row == row && startCol <= c.col < startCol + |values|))
    && (forall k :: 0 <= k < |values| ==> Get(m, Cell(row, startCol + k)) == Stored(values[k]))
    && (forall c: Cell :: c.row != row || c.col < startCol || c.col >= startCol + |values| ==> Get(m, c) == Get(m0, c))
  }

  /** Storing the next value of a row extends what the row holds. */
  lemma {:induction false} RowStep(m0: map<Cell, Value>, before: map<Cell, Value>, after: map<Cell, Value>, row: int, startCol: int,
                written: seq<Value>, v: Value)
    requires RowHolds(m0, before, row, startCol, written)
    requires after == before[Cell(row, startCol + |written|) := Stored(v)]
    ensures RowHolds(m0, after, row, startCol, written + [v])
  {
    var w := written + [v];
    forall k | 0 <= k < |w|
      ensures Get(after, Cell(row, startCol + k)) == Stored(w[k])
    {
      if k < |written| {
        assert w[k] == written[k];
      }
    }
  }

  /** Writes one row of three values from `startCol` on, in column order,
      stopping at the first value that cannot go into a cell. */
  method WriteRow(ws: Worksheet, row: int, startCol: int, values: seq<Json>) returns (ok: bool)
    requires ws.Valid() && row >= 1 && startCol >= 1 && |values| == 3
    requires forall r :: r in ws.merged ==> r.maxCol < startCol
    modifies ws
    ensures ws.Valid() && ws.merged == old(ws.merged)
    ensures ok <==> ToCell(values[0]).Some? && ToCell(values[1]).Some? && ToCell(values[2]).Some?
    ensures ok ==> RowHolds(old(ws.cells), ws.cells, row, startCol,
                            [ToCell(values[0]).value, ToCell(values[1]).value, ToCell(values[2]).value])
    ensures forall c: Cell :: c.row != row || c.col < startCol || c.col >= startCol + 3 ==>
              (c in ws.cells <==> c in old(ws.cells)) && Get(ws.cells, c) == Get(old(ws.cells), c)
  {
    ghost var m0 := ws.cells;
    ghost var written: seq<Value> := [];
    var offset := 0;
    while offset < 3
      invariant 0 <= offset <= 3 && |written| == offset
      invariant ws.Valid() && ws.merged == old(ws.merged)
      invariant forall k :: 0 <= k < offset ==> ToCell(values[k]) == Some(written[k])
      invariant RowHolds(m0, ws.cells, row, startCol, written)
    {
      var v := ToCell(values[offset]);
      if v.None? {
        return false;
      }
      ghost var before := ws.cells;
      var stored := ws.SetValue(Cell(row, startCol + offset), v.value);
      assert stored;
      RowStep(m0, before, ws.cells, row, startCol, written, v.value);
      written := written + [v.value];
      offset := offset + 1;
    }
    assert written == [ToCell(values[0]).value, ToCell(values[1]).value, ToCell(values[2]).value];
    ok := true;
  }

  /** Writes the row of one record: its three fields, looked up first, then
      stored column by column. */
  method WriteRecord(ws: Worksheet, row: int, startCol: int, record: Json) returns (ok: bool)
    requires ws.Valid() && row >= 1 && startCol >= 1
    requires forall r :: r in ws.merged ==> r.maxCol < startCol
    modifies ws
    ensures ws.Valid() && ws.merged == old(ws.merged)
    ensures ok <==> RecordRow(record).Some?
    ensures ok ==> RowHolds(old(ws.cells), ws.cells, row, startCol, RecordRow(record).value)
    ensures forall c: Cell :: c.row != row || c.col < startCol || c.col >= startCol + 3 ==>
              (c in ws.cells <==> c in old(ws.cells)) && Get(ws.cells, c) == Get(old(ws.cells), c)
  {
    var values := [GetOr(record, NewHeaders[0], JString("")), GetOr(record, NewHeaders[1], JString("")),
                   GetOr(record, NewHeaders[2], JString(""))];
    if values[0].None? {
      return false;
    }
    ok := WriteRow(ws, row, startCol, [values[0].value, values[1].value, values[2].value]);
  }

  /** The outcome of `append_results_to_file`: the output path once the
      workbook is saved, or the first record whose row raised. */
  datatype AppendOutcome = SavedTo(path: string) | Raised(record: nat)

  /** `append_results_to_file`: on the sheet named `sheetName` (the active
      one when there is none), the headers go into row 3 and record `i`
      into row 4 + i, in the three columns after `max_column`. Saving writes
      the sheet to `outputPath`; after a raise nothing is saved. */
  method AppendResultsToFile(names: seq<string>, sheets: seq<Worksheet>, active: nat, sheetName: string,
                             outputPath: string, classifications: seq<Json>)
    returns (outcome: AppendOutcome, ghost startCol: int)
    requires |names| == |sheets| && active < |names|
    requires sheets[SheetByName(names, active, sheetName)].Valid()
    modifies sheets[SheetByName(names, active, sheetName)]
    ensures var ws := sheets[SheetByName(names, active, sheetName)];
      && ws.Valid() && ws.merged == old(ws.merged)
      && startCol == MaxColumnOf(old(ws.cells).Keys) + 1
      && outcome == (match RowsOf(classifications)
                     case AllRows(_) => SavedTo(outputPath)
                     case BadRecord(i) => Raised(i))
      && (outcome.SavedTo? ==> AppendedFrom(old(ws.cells), ws.cells, startCol, RowsOf(classifications).rows))
      && (forall c: Cell :: c.col < startCol ==> (c in ws.cells <==> c in old(ws.cells)) && Get(ws.cells, c) == Get(old(ws.cells), c))
  {
    var ws := sheets[SheetByName(names, active, sheetName)];
    ghost var m0 := ws.cells;
    var maxRow, maxCol := ws.Dimensions();
    var start := maxCol + 1;
    startCol := start;
    MergedLeftOfNewColumns(ws);
    var headersOk := WriteRow(ws, HeaderRow, start, [JString(NewHeaders[0]), JString(NewHeaders[1]), JString(NewHeaders[2])]);
    HeadersWritten(m0, ws.cells, start);
    outcome := WriteRecords(ws, start, classifications, outputPath, m0);
  }

  /** The data rows of `append_results_to_file`, written below headers that
      are already in place; `m0` is the sheet before the headers. */
  method WriteRecords(ws: Worksheet, start: int, classifications: seq<Json>, outputPath: string,
                      ghost m0: map<Cell, Value>)
    returns (outcome: AppendOutcome)
    requires ws.Valid() && start >= 1
    requires forall r :: r in ws.merged ==> r.maxCol < start
    requires AppendedFrom(m0, ws.cells, start, [])
    modifies ws
    ensures ws.Valid() && ws.merged == old(ws.merged)
    ensures outcome == (match RowsOf(classifications)
                        case AllRows(_) => SavedTo(outputPath)
                        case BadRecord(i) => Raised(i))
    ensures outcome.SavedTo? ==> AppendedFrom(m0, ws.cells, start, RowsOf(classifications).rows)
    ensures forall c: Cell :: c.col < start ==> (c in ws.cells <==> c in m0) && Get(ws.cells, c) == Get(m0, c)
  {
    ghost var rows: seq<seq<Value>> := [];
    var i := 0;
    while i < |classifications|
      invariant 0 <= i <= |classifications| && |rows| == i
      invariant ws.Valid() && ws.merged == old(ws.merged)
      invariant forall k :: 0 <= k < i ==> RecordRow(classifications[k]) == Some(rows[k])
      invariant AppendedFrom(m0, ws.cells, start, rows)
    {
      var ok;
      ok, rows := WriteNextRecord(ws, start, classifications, i, m0, rows);
      if !ok {
        outcome := Raised(i);
        return;
      }
      i := i + 1;
    }
    AllRecordsGood(classifications, rows);
    LeftColumnsKept(m0, ws.cells, start, rows);
    outcome := SavedTo(outputPath);
  }

  /** One turn of the loop over the records: record `i` goes into its row,
      or is the first record that raises. */
  method WriteNextRecord(ws: Worksheet, start: int, classifications: seq<Json>, i: nat,
                         ghost m0: map<Cell, Value>, ghost rows: seq<seq<Value>>)
    returns (ok: bool, ghost rows': seq<seq<Value>>)
    requires ws.Valid() && start >= 1 && i < |classifications| && |rows| == i
    requires forall r :: r in ws.merged ==> r.maxCol < start
    requires forall k :: 0 <= k < i ==> RecordRow(classifications[k]) == Some(rows[k])
    requires AppendedFrom(m0, ws.cells, start, rows)
    modifies ws
    ensures ws.Valid() && ws.merged == old(ws.merged)
    ensures ok ==> && RecordRow(classifications[i]).Some?
                   && rows' == rows + [RecordRow(classifications[i]).value]
                   && (forall k :: 0 <= k < i + 1 ==> RecordRow(classifications[k]) == Some(rows'[k]))
                   && AppendedFrom(m0, ws.cells, start, rows')
    ensures !ok ==> && RowsOf(classifications) == BadRecord(i)
                    && forall c: Cell :: c.col < start ==> (c in ws.cells <==> c in m0) && Get(ws.cells, c) == Get(m0, c)
  {
    ghost var before := ws.cells;
    ok := WriteRecord(ws, DataStartRow + i, start, classifications[i]);
    if !ok {
      LeftColumnsKept(m0, before, start, rows);
      FirstBadRecord(classifications, i);
      rows' := rows;
      return;
    }
    AppendRow(m0, before, ws.cells, start, rows, RecordRow(classifications[i]).value);
    rows' := rows + [RecordRow(classifications[i]).value];
  }

  /** Appending leaves every column left of the new ones as it was. */
  lemma {:induction false} LeftColumnsKept(m0: map<Cell, Value>, m: map<Cell, Value>, startCol: int, rows: seq<seq<Value>>)
    requires AppendedFrom(m0, m, startCol, rows)
    ensures forall c: Cell :: c.col < startCol ==> (c in m <==> c in m0) && Get(m, c) == Get(m0, c)
  {
    forall c: Cell | c.col < startCol
      ensures (c in m <==> c in m0) && Get(m, c) == Get(m0, c)
    {
      assert !InBlock(c, startCol, |rows|);
    }
  }

  /** Where every record before `i` has a row and record `i` has none, the
      first bad record is `i`. */
  lemma {:induction false} FirstBadRecord(classifications: seq<Json>, i: nat)
    requires i < |classifications| && RecordRow(classifications[i]).None?
    requires forall k :: 0 <= k < i ==> RecordRow(classifications[k]).Some?
    ensures RowsOf(classifications) == BadRecord(i)
  {
  }

  /** Where every record has a row, those are the rows. */
  lemma {:induction false} AllRecordsGood(classifications: seq<Json>, rows: seq<seq<Value>>)
    requires |rows| == |classifications|
    requires forall k :: 0 <= k < |classifications| ==> RecordRow(classifications[k]) == Some(rows[k])
    ensures RowsOf(classifications) == AllRows(rows)
  {
  }

  /** The headers alone are the block of no record. */
  lemma {:induction false} HeadersWritten(m0: map<Cell, Value>, m: map<Cell, Value>, startCol: int)
    requires RowHolds(m0, m, HeaderRow, startCol, [Str(NewHeaders[0]), Str(NewHeaders[1]), Str(NewHeaders[2])])
    ensures AppendedFrom(m0, m, startCol, [])
  {
    var headers := [Str(NewHeaders[0]), Str(NewHeaders[1]), Str(NewHeaders[2])];
    assert Get(m, Cell(HeaderRow, startCol + 0)) == Stored(headers[0]) == headers[0];
    assert Get(m, Cell(HeaderRow, startCol + 1)) == Stored(headers[1]) == headers[1];
    assert Get(m, Cell(HeaderRow, startCol + 2)) == Stored(headers[2]) == headers[2];
  }

  /** Writing the next record's row extends the block by that row. */
  lemma {:induction false} AppendRow(m0: map<Cell, Value>, before: map<Cell, Value>, after: map<Cell, Value>, startCol: int,
                  rows: seq<seq<Value>>, row: seq<Value>)
    requires AppendedFrom(m0, before, startCol, rows) && |row| == 3
    requires RowHolds(before, after, DataStartRow + |rows|, startCol, row)
    ensures AppendedFrom(m0, after, startCol, rows + [row])
  {
    var rows' := rows + [row];
    forall i, k | 0 <= i < |rows'| && 0 <= k < 3 && k < |rows'[i]|
      ensures Get(after, Cell(DataStartRow + i, startCol + k)) == Stored(rows'[i][k])
    {
      if i < |rows| {
        assert rows'[i] == rows[i];
      }
    }
  }
}
