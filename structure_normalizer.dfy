/** `preprocess_structure`: dissolve every merged range that reaches the data
    rows and copy its top-left value into each of its cells on those rows. */
module StructureNormalizer {
  import opened Cells
  import opened Sheets

  /** The first data row of the report layout (cell B4); rows above it hold
      titles and the header row. */
  const StartRow := 4

  /** The merged ranges the normaliser dissolves: those whose bottom row is a data row. */
  function Reaching(merged: set<Range>): (rs: set<Range>)
    ensures rs <= merged
    ensures forall r :: r in rs <==> r in merged && r.maxRow >= StartRow
  {
    set r | r in merged && r.maxRow >= StartRow
  }

  /** `c` is left alone by the ranges `rs`: no range covers it, or the only
      ones that do have it as their top-left cell above the data rows. */
  ghost predicate Untouched(rs: set<Range>, c: Cell) {
    forall r :: r in rs && r.Covers(c) ==> c.row < StartRow && c == r.Anchor()
  }

  /** `m` is `m0` after dissolving the ranges `rs`: every covered cell on a
      data row holds the range's top-left value as it was in `m0` (as a cell
      stores it, see `Stored`), covered
      cells above the data rows other than the top-left one are deleted by
      the unmerge, and every other cell is as it was. */
  ghost predicate NormalizedOn(m0: map<Cell, Value>, m: map<Cell, Value>, rs: set<Range>) {
    && (forall r, c :: r in rs && r.Covers(c) && c.row >= StartRow ==> c in m && m[c] == Stored(Get(m0, r.Anchor())))
    && (forall r, c :: r in rs && r.Covers(c) && c.row < StartRow && c != r.Anchor() ==> c !in m)
    && (forall c :: Untouched(rs, c) ==> (c in m <==> c in m0) && Get(m, c) == Get(m0, c))
  }

  /** The cell-filling double loop of `preprocess_structure` for one range:
      every cell of `r` on a data row receives `v`, as a cell stores it. */
  method FillRange(ws: Worksheet, r: Range, v: Value)
    requires ws.Valid() && r.WellFormed()
    requires forall q :: q in ws.merged ==> !Overlap(q, r)
    modifies ws
    ensures ws.Valid() && ws.merged == old(ws.merged)
    ensures forall c :: c in ws.cells <==> c in old(ws.cells) || (r.Covers(c) && c.row >= StartRow)
    ensures forall c :: Get(ws.cells, c) == if r.Covers(c) && c.row >= StartRow then Stored(v) else Get(old(ws.cells), c)
  {
    var row := r.minRow;
    while row <= r.maxRow
      invariant r.minRow <= row <= r.maxRow + 1
      invariant ws.Valid() && ws.merged == old(ws.merged)
      invariant forall c :: c in ws.cells <==> c in old(ws.cells) || (r.Covers(c) && StartRow <= c.row < row)
      invariant forall c :: Get(ws.cells, c) ==
                              (if r.Covers(c) && StartRow <= c.row < row then Stored(v) else Get(old(ws.cells), c))
    {
      if row >= StartRow {
        FillRow(ws, r, row, v);
      }
      row := row + 1;
    }
  }

  /** The inner loop of the fill: row `row` of `r`, column by column. */
  method FillRow(ws: Worksheet, r: Range, row: int, v: Value)
    requires ws.Valid() && r.WellFormed() && r.minRow <= row <= r.maxRow && row >= StartRow
    requires forall q :: q in ws.merged ==> !Overlap(q, r)
    modifies ws
    ensures ws.Valid() && ws.merged == old(ws.merged)
    ensures forall c :: c in ws.cells <==> c in old(ws.cells) || (r.Covers(c) && c.row == row)
    ensures forall c :: Get(ws.cells, c) == if r.Covers(c) && c.row == row then Stored(v) else Get(old(ws.cells), c)
  {
    var col := r.minCol;
    while col <= r.maxCol
      invariant r.minCol <= col <= r.maxCol + 1
      invariant ws.Valid() && ws.merged == old(ws.merged)
      invariant forall c :: c in ws.cells <==> c in old(ws.cells) || (r.Covers(c) && c.row == row && c.col < col)
      invariant forall c :: Get(ws.cells, c) ==
                              (if r.Covers(c) && c.row == row && c.col < col then Stored(v) else Get(old(ws.cells), c))
    {
      var written := ws.SetValue(Cell(row, col), v);
      col := col + 1;
    }
  }

  /** Dissolving one more range `r`, disjoint from those already dissolved,
      extends the normalisation to `r`. */
  lemma {:induction false} NormalizeStep(m0: map<Cell, Value>, m1: map<Cell, Value>, m2: map<Cell, Value>,
                      done: set<Range>, r: Range, v: Value)
    requires NormalizedOn(m0, m1, done)
    requires forall q :: q in done ==> !Overlap(q, r)
    requires v == Get(m0, r.Anchor())
    requires forall c :: c in m2 <==> c in UnmergedFrom(m1, r) || (r.Covers(c) && c.row >= StartRow)
    requires forall c :: Get(m2, c) == (if r.Covers(c) && c.row >= StartRow then Stored(v)
                                        else Get(UnmergedFrom(m1, r), c))
    ensures NormalizedOn(m0, m2, done + {r})
  {
    forall q, c | q in done + {r} && q.Covers(c) && c.row >= StartRow
      ensures c in m2 && m2[c] == Stored(Get(m0, q.Anchor()))
    {
      if q != r {
        assert !r.Covers(c);
        assert c in m1;
      }
    }
    forall c | Untouched(done + {r}, c)
      ensures (c in m2 <==> c in m0) && Get(m2, c) == Get(m0, c)
    {
      assert Untouched(done, c);
    }
  }

  /** The body of the range loop of `preprocess_structure` for a range that
      reaches the data rows: read the top-left value, unmerge, fill. */
  method DissolveRange(ws: Worksheet, r: Range, ghost m0: map<Cell, Value>, ghost done: set<Range>)
    requires ws.Valid() && r in ws.merged && r !in done && r.maxRow >= StartRow
    requires forall q :: q in ws.merged + done && q != r ==> !Overlap(q, r)
    requires NormalizedOn(m0, ws.cells, done)
    modifies ws
    ensures ws.Valid() && ws.merged == old(ws.merged) - {r}
    ensures NormalizedOn(m0, ws.cells, done + {r})
  {
    var topLeft := ws.At(r.Anchor());
    assert forall q :: q in done && q.Covers(r.Anchor()) ==> Overlap(q, r);
    ghost var before := ws.cells;
    ws.UnmergeCells(r);
    assert ws.cells == UnmergedFrom(before, r);
    FillRange(ws, r, topLeft);
    NormalizeStep(m0, before, ws.cells, done, r, topLeft);
  }

  /** `preprocess_structure` on the selected worksheet. The ranges are taken
      from a snapshot of the merged set, in any order. */
  method PreprocessStructure(ws: Worksheet)
    requires ws.Valid() && Disjoint(ws.merged)
    modifies ws
    ensures ws.Valid() && Disjoint(ws.merged)
    ensures ws.merged == old(ws.merged) - Reaching(old(ws.merged))
    ensures Reaching(ws.merged) == {}
    ensures NormalizedOn(old(ws.cells), ws.cells, Reaching(old(ws.merged)))
    ensures Reaching(old(ws.merged)) == {} ==> ws.cells == old(ws.cells)
  {
    ghost var m0 := ws.cells;
    ghost var all := ws.merged;
    ghost var done: set<Range> := {};
    var todo := ws.merged;
    while todo != {}
      invariant ws.Valid()
      invariant todo <= all && done == Reaching(all - todo)
      invariant ws.merged == all - done
      invariant NormalizedOn(m0, ws.cells, done)
      decreases todo
    {
      var r :| r in todo;
      todo := todo - {r};
      assert all - todo == (all - (todo + {r})) + {r};
      if r.maxRow >= StartRow {
        DissolveRange(ws, r, m0, done);
        done := done + {r};
      }
    }
    if Reaching(all) == {} {
      assert forall c :: c in ws.cells <==> c in m0;
      assert ws.cells == m0;
    }
  }

  /** The outcome of normalising is determined by the original cells and the
      dissolved ranges alone, so the order in which the ranges are visited
      does not matter. */
  lemma {:induction false} NormalizedUnique(m0: map<Cell, Value>, m1: map<Cell, Value>, m2: map<Cell, Value>, rs: set<Range>)
    requires NormalizedOn(m0, m1, rs) && NormalizedOn(m0, m2, rs)
    ensures m1 == m2
  {
    forall c
      ensures (c in m1 <==> c in m2) && Get(m1, c) == Get(m2, c)
    {
      if !Untouched(rs, c) {
        var r :| r in rs && r.Covers(c) && !(c.row < StartRow && c == r.Anchor());
        if c.row >= StartRow {
          assert c in m1 && c in m2;
        } else {
          assert c !in m1 && c !in m2;
        }
      }
    }
    assert forall c :: c in m1 ==> c in m2 && m1[c] == Get(m1, c);
  }

  /** Normalising never changes what the title and header rows read: the
      top-left cells keep their values and the deleted cells were empty
      merged cells. */
  lemma {:induction false} HeaderRowsKept(m0: map<Cell, Value>, m: map<Cell, Value>, rs: set<Range>)
    requires forall r, c :: r in rs && r.Covers(c) && c != r.Anchor() ==> Get(m0, c) == Null
    requires NormalizedOn(m0, m, rs)
    ensures forall c: Cell :: c.row < StartRow ==> Get(m, c) == Get(m0, c)
  {
    forall c: Cell | c.row < StartRow
      ensures Get(m, c) == Get(m0, c)
    {
      if !Untouched(rs, c) {
        var r :| r in rs && r.Covers(c) && c != r.Anchor();
        assert c !in m;
      }
    }
  }
}
