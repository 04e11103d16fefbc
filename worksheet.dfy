/** The worksheet as the core sees it through openpyxl: a dictionary of cell
    objects addressed by (row, column), 1-based, and a set of merged
    rectangles. A key present in `cells` is a cell object that exists (it
    counts towards the sheet's dimensions), possibly holding `None`. */
module Sheets {
  import opened Cells

  datatype Cell = Cell(row: int, col: int)

  /** A merged rectangle, `min_col, min_row, max_col, max_row` of `range_boundaries`. */
  datatype Range = Range(minRow: int, minCol: int, maxRow: int, maxCol: int) {
    predicate WellFormed() {
      1 <= minRow <= maxRow && 1 <= minCol <= maxCol
    }

    predicate Covers(c: Cell) {
      minRow <= c.row <= maxRow && minCol <= c.col <= maxCol
    }

    /** The top-left cell, the only one of a merged range that holds a value. */
    function Anchor(): Cell {
      Cell(minRow, minCol)
    }

    /** Every cell of the rectangle. */
    function Cells(): (s: set<Cell>)
      ensures forall c :: c in s <==> Covers(c)
    {
      set i, j | minRow <= i <= maxRow && minCol <= j <= maxCol :: Cell(i, j)
    }
  }

  predicate Overlap(a: Range, b: Range) {
    a.minRow <= b.maxRow && b.minRow <= a.maxRow && a.minCol <= b.maxCol && b.minCol <= a.maxCol
  }

  /** No two merged ranges share a cell, as in every spreadsheet file. */
  predicate Disjoint(merged: set<Range>) {
    forall a, b :: a in merged && b in merged && a != b ==> !Overlap(a, b)
  }

  /** The longest text a cell holds: assigning a longer string keeps only
      its first 32,767 characters. */
  const MaxCellText := 32767

  /** The value a cell holds after `cell.value = v`: text is cut to
      `MaxCellText` characters, every other value is kept as it is. */
  function Stored(v: Value): (w: Value)
    ensures v.Str? <==> w.Str?
    ensures v.Str? ==> |w.s| == (if |v.s| <= MaxCellText then |v.s| else MaxCellText) && w.s == v.s[..|w.s|]
    ensures !v.Str? || |v.s| <= MaxCellText ==> w == v
  {
    if v.Str? && |v.s| > MaxCellText then Str(v.s[..MaxCellText]) else v
  }

  /** Storing a stored value again changes nothing, so copying a cell's
      value into another cell copies it exactly. */
  lemma {:induction false} StoredIdempotent(v: Value)
    ensures Stored(Stored(v)) == Stored(v)
  {
  }

  /** Reading a cell: a cell that does not exist reads as `None`. */
  function Get(m: map<Cell, Value>, c: Cell): Value {
    if c in m then m[c] else Null
  }

  /** `c` is a `MergedCell`: covered by a merged range but not its top-left cell. */
  predicate MergedNonAnchor(merged: set<Range>, c: Cell) {
    exists r :: r in merged && r.Covers(c) && c != r.Anchor()
  }

  /** The cells after `merge_cells(r)`: every cell of `r` exists, and all but
      the top-left one become empty merged cells. */
  function MergedInto(m: map<Cell, Value>, r: Range): (m': map<Cell, Value>)
    ensures m'.Keys == m.Keys + r.Cells()
    ensures forall c :: Get(m', c) == if r.Covers(c) && c != r.Anchor() then Null else Get(m, c)
  {
    map c | c in m.Keys + r.Cells() :: if r.Covers(c) && c != r.Anchor() then Null else Get(m, c)
  }

  /** The cells after `unmerge_cells(r)`: the cells of `r` other than its
      top-left one are deleted. */
  function UnmergedFrom(m: map<Cell, Value>, r: Range): (m': map<Cell, Value>)
    ensures forall c :: c in m' <==> c in m && !(r.Covers(c) && c != r.Anchor())
    ensures forall c :: c in m' ==> m'[c] == m[c]
  {
    map c | c in m && !(r.Covers(c) && c != r.Anchor()) :: m[c]
  }

  predicate IsMaxRow(keys: set<Cell>, n: int) {
    && (keys == {} ==> n == 1)
    && (keys != {} ==> (exists c :: c in keys && c.row == n) && forall c :: c in keys ==> c.row <= n)
  }

  predicate IsMaxColumn(keys: set<Cell>, n: int) {
    && (keys == {} ==> n == 1)
    && (keys != {} ==> (exists c :: c in keys && c.col == n) && forall c :: c in keys ==> c.col <= n)
  }

  /** `ws.max_row` of a sheet whose existing cells are `keys`. */
  ghost function MaxRowOf(keys: set<Cell>): (n: int)
    ensures IsMaxRow(keys, n)
    decreases keys
  {
    if keys == {} then 1
    else
      var c :| c in keys;
      var rest := keys - {c};
      if rest == {} then
        assert keys == {c};
        c.row
      else
        var m := MaxRowOf(rest);
        if c.row > m then c.row else m
  }

  /** `ws.max_column` of a sheet whose existing cells are `keys`. */
  ghost function MaxColumnOf(keys: set<Cell>): (n: int)
    ensures IsMaxColumn(keys, n)
    decreases keys
  {
    if keys == {} then 1
    else
      var c :| c in keys;
      var rest := keys - {c};
      if rest == {} then
        assert keys == {c};
        c.col
      else
        var m := MaxColumnOf(rest);
        if c.col > m then c.col else m
  }

  /** The maximum is unique: any value with the defining property is `MaxRowOf`. */
  lemma {:induction false} MaxRowUnique(keys: set<Cell>, n: int)
    requires IsMaxRow(keys, n)
    ensures n == MaxRowOf(keys)
  {
    var m := MaxRowOf(keys);
    if keys != {} {
      var a :| a in keys && a.row == n;
      var b :| b in keys && b.row == m;
      assert a.row <= m && b.row <= n;
    }
  }

  lemma {:induction false} MaxColumnUnique(keys: set<Cell>, n: int)
    requires IsMaxColumn(keys, n)
    ensures n == MaxColumnOf(keys)
  {
    var m := MaxColumnOf(keys);
    if keys != {} {
      var a :| a in keys && a.col == n;
      var b :| b in keys && b.col == m;
      assert a.col <= m && b.col <= n;
    }
  }

  class Worksheet {
    var cells: map<Cell, Value>
    var merged: set<Range>

    /** What openpyxl maintains: coordinates are 1-based, and every cell of a
        merged range exists, the non-top-left ones as empty `MergedCell`s. */
    ghost predicate Valid()
      reads this
    {
      && (forall c :: c in cells ==> c.row >= 1 && c.col >= 1)
      && (forall r :: r in merged ==> r.WellFormed())
      && (forall r, c :: r in merged && r.Covers(c) ==> c in cells)
      && (forall r, c :: r in merged && r.Covers(c) && c != r.Anchor() ==> cells[c] == Null)
    }

    /** A worksheet as loaded from a file. */
    constructor Load(cells0: map<Cell, Value>, merged0: set<Range>)
      requires forall c :: c in cells0 ==> c.row >= 1 && c.col >= 1
      requires forall r :: r in merged0 ==> r.WellFormed()
      requires forall r, c :: r in merged0 && r.Covers(c) ==> c in cells0
      requires forall r, c :: r in merged0 && r.Covers(c) && c != r.Anchor() ==> cells0[c] == Null
      ensures Valid() && cells == cells0 && merged == merged0
    {
      cells := cells0;
      merged := merged0;
    }

    function At(c: Cell): Value
      reads this
    {
      Get(cells, c)
    }

    /** `ws.cell(row, column).value = v`: refused (openpyxl raises) when the
        cell is a merged cell other than a range's top-left one; otherwise
        the cell holds `v`, cut to `MaxCellText` characters when it is text. */
    method SetValue(c: Cell, v: Value) returns (ok: bool)
      requires Valid() && c.row >= 1 && c.col >= 1
      modifies this
      ensures Valid() && merged == old(merged)
      ensures ok == !MergedNonAnchor(old(merged), c)
      ensures cells == if ok then old(cells)[c := Stored(v)] else old(cells)
    {
      ok := !MergedNonAnchor(merged, c);
      if ok {
        cells := cells[c := Stored(v)];
      }
    }

    /** `ws.merge_cells(...)`. */
    method MergeCells(r: Range)
      requires Valid() && r.WellFormed()
      modifies this
      ensures Valid()
      ensures merged == old(merged) + {r}
      ensures cells == MergedInto(old(cells), r)
    {
      cells := MergedInto(cells, r);
      merged := merged + {r};
    }

    /** `ws.unmerge_cells(...)`, for a range that shares no cell with another. */
    method UnmergeCells(r: Range)
      requires Valid() && r in merged
      requires forall q :: q in merged && q != r ==> !Overlap(q, r)
      modifies this
      ensures Valid()
      ensures merged == old(merged) - {r}
      ensures cells == UnmergedFrom(old(cells), r)
    {
      cells := UnmergedFrom(cells, r);
      merged := merged - {r};
    }

    /** `ws.max_row` and `ws.max_column`: the extent of the existing cells,
        1 for an empty sheet. */
    method Dimensions() returns (maxRow: int, maxCol: int)
      requires Valid()
      ensures maxRow == MaxRowOf(cells.Keys) && maxCol == MaxColumnOf(cells.Keys)
      ensures 1 <= maxRow && 1 <= maxCol
    {
      maxRow, maxCol := 1, 1;
      var todo := cells.Keys;
      var seen: set<Cell> := {};
      while todo != {}
        invariant todo + seen == cells.Keys && todo !! seen
        invariant seen == {} ==> maxRow == 1 && maxCol == 1
        invariant seen != {} ==> IsMaxRow(seen, maxRow) && IsMaxColumn(seen, maxCol)
        invariant 1 <= maxRow && 1 <= maxCol
        decreases todo
      {
        var c :| c in todo;
        if seen == {} {
          maxRow, maxCol := c.row, c.col;
        } else {
          if c.row > maxRow { maxRow := c.row; }
          if c.col > maxCol { maxCol := c.col; }
        }
        todo := todo - {c};
        seen := seen + {c};
      }
      MaxRowUnique(cells.Keys, maxRow);
      MaxColumnUnique(cells.Keys, maxCol);
    }
  }

  /** The position of the first sheet called `name`. */
  function FirstIndex(names: seq<string>, name: string): (i: nat)
    requires name in names
    ensures i < |names| && names[i] == name
    ensures forall k :: 0 <= k < i ==> names[k] != name
  {
    if names[0] == name then 0 else 1 + FirstIndex(names[1..], name)
  }

  /** `wb[name]` when a sheet has that name, `wb.active` otherwise. */
  function SheetByName(names: seq<string>, active: nat, name: string): (i: nat)
    requires active < |names|
    ensures i < |names|
    ensures name in names ==> names[i] == name && forall k :: 0 <= k < i ==> names[k] != name
    ensures name !in names ==> i == active
  {
    if name in names then FirstIndex(names, name) else active
  }
}
