/** `consolidate_issue_column`: find the issue column in header row 3, split
    the data rows into runs of rows with equal keys (the columns between B
    and the issue column), write each run's issue texts, joined by line
    breaks, into its first row and merge the run's issue cells vertically. */
module IssueConsolidator {
  import opened PyText
  import opened Cells
  import opened Sheets
  import opened Wrappers

  const HeaderRow := 3
  const FirstDataRow := 4
  /** Column B, the first key column. */
  const FirstKeyColumn := 2
  /** The header text the pipeline searches for. */
  const DefaultIssueHeader := "Issue"

  // ---------------------------------------------------------------------
  // Runs of equal keys

  /** A run of data rows, as positions `first..last` (inclusive) in the
      sequence of data rows. */
  datatype Span = Span(first: nat, last: nat)

  /** For each data row, whether its key equals the previous row's key
      under Python `==`; never for the first row. */
  function Continues(ks: seq<seq<Value>>): (c: seq<bool>)
    ensures |c| == |ks|
  {
    seq(|ks|, i requires 0 <= i < |ks| => i > 0 && KeyEq(ks[i - 1], ks[i]))
  }

  /** The runs of a row sequence in which row `i` continues the run of row
      `i - 1` exactly when `cont[i]` holds. */
  function RunsOf(cont: seq<bool>): (r: seq<Span>)
    ensures |r| > 0 <==> |cont| > 0
    ensures |r| > 0 ==> r[|r| - 1].first <= r[|r| - 1].last == |cont| - 1
  {
    if |cont| == 0 then []
    else
      var n := |cont| - 1;
      var g := RunsOf(cont[..n]);
      if n > 0 && cont[n] then g[..|g| - 1] + [Span(g[|g| - 1].first, n)]
      else g + [Span(n, n)]
  }

  /** The runs of equal keys. */
  function Runs(ks: seq<seq<Value>>): (r: seq<Span>)
    ensures |r| > 0 <==> |ks| > 0
    ensures |r| > 0 ==> r[|r| - 1].first <= r[|r| - 1].last == |ks| - 1
  {
    RunsOf(Continues(ks))
  }

  /** `spans` lists runs that tile positions `0..n-1` in order: each run
      starts right after the previous one ends, and the last ends at `n-1`. */
  ghost predicate Tiles(n: int, spans: seq<Span>)
    decreases |spans|
  {
    if |spans| == 0 then n == 0
    else
      var s := spans[|spans| - 1];
      s.first <= s.last == n - 1 && Tiles(s.first, spans[..|spans| - 1])
  }

  /** `spans` tiles positions `0..|cont|-1` and cuts exactly where `cont`
      does not hold: inside a run every position continues the previous
      one, and every run but the first starts at a position that does not. */
  ghost predicate IsCut(cont: seq<bool>, spans: seq<Span>) {
    && Tiles(|cont|, spans)
    && (forall k, i :: 0 <= k < |spans| && spans[k].first < i <= spans[k].last && i < |cont| ==> cont[i])
    && (forall k :: 0 < k < |spans| && spans[k].first < |cont| ==> !cont[spans[k].first])
  }

  /** `spans` partitions the data rows into contiguous, ordered, maximal runs:
      inside a run every row's key equals the previous row's, and at every
      cut the keys differ. */
  ghost predicate IsRunPartition(ks: seq<seq<Value>>, spans: seq<Span>) {
    IsCut(Continues(ks), spans)
  }

  /** The runs of a tiling lie inside `0..n-1`, in increasing order. */
  lemma {:induction false} TilesBounds(n: int, spans: seq<Span>)
    requires Tiles(n, spans)
    ensures |spans| > 0 <==> n > 0
    ensures |spans| > 0 ==> spans[0].first == 0
    ensures forall k :: 0 <= k < |spans| ==> 0 <= spans[k].first <= spans[k].last < n
    ensures forall j, k :: 0 <= j < k < |spans| ==> spans[j].last < spans[k].first
    ensures forall k :: 0 < k < |spans| ==> spans[k].first == spans[k - 1].last + 1
    decreases |spans|
  {
    if |spans| > 0 {
      var m := |spans| - 1;
      var rest := spans[..m];
      TilesBounds(spans[m].first, rest);
      assert forall k :: 0 <= k < m ==> rest[k] == spans[k];
    }
  }

  /** A row that starts a new run extends a cut by a one-row run. */
  lemma {:induction false} CutSnocNew(cont: seq<bool>, g: seq<Span>, b: bool)
    requires IsCut(cont, g) && (|cont| == 0 || !b)
    ensures IsCut(cont + [b], g + [Span(|cont|, |cont|)])
  {
    var c := cont + [b];
    var h := g + [Span(|cont|, |cont|)];
    assert h[..|g|] == g;
    TilesBounds(|cont|, g);
    assert forall k :: 0 <= k < |g| ==> h[k] == g[k];
    assert forall i :: 0 <= i < |cont| ==> c[i] == cont[i];
  }

  /** A row that continues the last run extends that run by one row. */
  lemma {:induction false} CutSnocExtend(cont: seq<bool>, g: seq<Span>, b: bool)
    requires IsCut(cont, g) && |cont| > 0 && b
    ensures IsCut(cont + [b], g[..|g| - 1] + [Span(g[|g| - 1].first, |cont|)])
  {
    var c := cont + [b];
    var m := |g| - 1;
    var h := g[..m] + [Span(g[m].first, |cont|)];
    assert h[..m] == g[..m];
    TilesBounds(|cont|, g);
    assert forall k :: 0 <= k < m ==> h[k] == g[k];
    assert forall i :: 0 <= i < |cont| ==> c[i] == cont[i];
  }

  /** `RunsOf` cuts exactly where `cont` does not hold. */
  lemma {:induction false} RunsOfIsCut(cont: seq<bool>)
    ensures IsCut(cont, RunsOf(cont))
  {
    if |cont| > 0 {
      var n := |cont| - 1;
      var prefix := cont[..n];
      var g := RunsOf(prefix);
      RunsOfIsCut(prefix);
      assert cont == prefix + [cont[n]];
      if n > 0 && cont[n] {
        CutSnocExtend(prefix, g, cont[n]);
        assert RunsOf(cont) == g[..|g| - 1] + [Span(g[|g| - 1].first, n)];
      } else {
        CutSnocNew(prefix, g, cont[n]);
        assert RunsOf(cont) == g + [Span(n, n)];
      }
    }
  }

  /** Dropping the last row from a cut whose last run is that row alone. */
  lemma {:induction false} CutDropSingle(cont: seq<bool>, spans: seq<Span>)
    requires IsCut(cont, spans) && |cont| > 0 && spans[|spans| - 1].first == |cont| - 1
    ensures IsCut(cont[..|cont| - 1], spans[..|spans| - 1])
    ensures |cont| > 1 ==> !cont[|cont| - 1]
    ensures spans == spans[..|spans| - 1] + [Span(|cont| - 1, |cont| - 1)]
  {
    var n := |cont| - 1;
    var m := |spans| - 1;
    var c := cont[..n];
    var h := spans[..m];
    TilesBounds(|cont|, spans);
    assert forall i :: 0 <= i < n ==> c[i] == cont[i];
    assert forall k :: 0 <= k < m ==> h[k] == spans[k];
    if m > 0 {
      assert !cont[spans[m].first];
    }
  }

  /** Dropping the last row from a cut whose last run has several rows. */
  lemma {:induction false} CutDropShorten(cont: seq<bool>, spans: seq<Span>)
    requires IsCut(cont, spans) && |cont| > 0 && spans[|spans| - 1].first < |cont| - 1
    ensures IsCut(cont[..|cont| - 1], spans[..|spans| - 1] + [Span(spans[|spans| - 1].first, |cont| - 2)])
    ensures cont[|cont| - 1]
    ensures spans == spans[..|spans| - 1] + [Span(spans[|spans| - 1].first, |cont| - 1)]
  {
    var n := |cont| - 1;
    var m := |spans| - 1;
    var c := cont[..n];
    var h := spans[..m] + [Span(spans[m].first, n - 1)];
    TilesBounds(|cont|, spans);
    assert h[..m] == spans[..m];
    assert spans[m].first < n <= spans[m].last;
    assert forall i :: 0 <= i < n ==> c[i] == cont[i];
    assert forall k :: 0 <= k < m ==> h[k] == spans[k];
  }

  /** Any cut of `cont` is the one `RunsOf` computes. */
  lemma {:induction false} CutIsRunsOf(cont: seq<bool>, spans: seq<Span>)
    requires IsCut(cont, spans)
    ensures spans == RunsOf(cont)
  {
    if |cont| > 0 {
      var n := |cont| - 1;
      var m := |spans| - 1;
      var g := RunsOf(cont[..n]);
      if spans[m].first == n {
        CutDropSingle(cont, spans);
        CutIsRunsOf(cont[..n], spans[..m]);
      } else {
        var shorter := spans[..m] + [Span(spans[m].first, n - 1)];
        CutDropShorten(cont, spans);
        CutIsRunsOf(cont[..n], shorter);
        assert g[..|g| - 1] == spans[..m];
      }
    }
  }

  /** The runs partition the data rows. */
  lemma {:induction false} RunsPartition(ks: seq<seq<Value>>)
    ensures IsRunPartition(ks, Runs(ks))
  {
    RunsOfIsCut(Continues(ks));
  }

  /** There is only one such partition: any partition into maximal runs of
      equal keys is the one `Runs` computes. */
  lemma {:induction false} RunPartitionUnique(ks: seq<seq<Value>>, spans: seq<Span>)
    requires IsRunPartition(ks, spans)
    ensures spans == Runs(ks)
  {
    CutIsRunsOf(Continues(ks), spans);
  }

  /** The runs tile the data rows. */
  lemma {:induction false} RunsTile(ks: seq<seq<Value>>)
    ensures Tiles(|ks|, Runs(ks))
  {
    RunsPartition(ks);
  }

  /** Every run but the first starts at a row whose key differs from the
      previous row's. */
  lemma {:induction false} RunStartCuts(ks: seq<seq<Value>>, k: nat)
    requires 0 < k < |Runs(ks)|
    ensures 0 < Runs(ks)[k].first < |ks| && !KeyEq(ks[Runs(ks)[k].first - 1], ks[Runs(ks)[k].first])
  {
    var spans := Runs(ks);
    RunsPartition(ks);
    TilesBounds(|ks|, spans);
    assert !Continues(ks)[spans[k].first];
  }

  /** Every row of a run has a key equal to the run's first key. */
  lemma {:induction false} RunKeysEqual(ks: seq<seq<Value>>, k: nat, i: int)
    requires k < |Runs(ks)| && Runs(ks)[k].first <= i <= Runs(ks)[k].last
    ensures i < |ks| && KeyEq(ks[Runs(ks)[k].first], ks[i])
  {
    var spans := Runs(ks);
    RunsPartition(ks);
    TilesBounds(|ks|, spans);
    RunMembersEqualFirst(ks, spans, k, i);
  }

  /** Python compares each row's key with the key of the first row of the
      current run; because `==` is an equivalence, every row of a run has a
      key equal to the run's first key. */
  lemma {:induction false} RunMembersEqualFirst(ks: seq<seq<Value>>, spans: seq<Span>, k: nat, i: nat)
    requires IsRunPartition(ks, spans)
    requires k < |spans| && spans[k].first <= i <= spans[k].last < |ks|
    ensures KeyEq(ks[spans[k].first], ks[i])
    decreases i
  {
    if i == spans[k].first {
      KeyEqEquivalence(ks[i], ks[i], ks[i]);
    } else {
      RunMembersEqualFirst(ks, spans, k, i - 1);
      assert Continues(ks)[i];
      KeyEqEquivalence(ks[spans[k].first], ks[i - 1], ks[i]);
    }
  }

  /** When every key is empty (the issue column is column B or A) all the
      data rows form a single run. */
  lemma {:induction false} EmptyKeysOneRun(ks: seq<seq<Value>>)
    requires |ks| > 0
    requires forall i :: 0 <= i < |ks| ==> ks[i] == []
    ensures Runs(ks) == [Span(0, |ks| - 1)]
  {
    RunPartitionUnique(ks, [Span(0, |ks| - 1)]);
  }

  // ---------------------------------------------------------------------
  // The text of a run

  /** `str(v).strip()` of every truthy value, in order. */
  function TextParts(vs: seq<Value>): (parts: seq<string>)
    ensures |parts| <= |vs|
  {
    if |vs| == 0 then []
    else
      var v := vs[|vs| - 1];
      TextParts(vs[..|vs| - 1]) + if Truthy(v) then [Strip(Show(v))] else []
  }

  /** `"\n".join(text_parts)` for the issue values of one run. */
  function GroupText(vs: seq<Value>): string {
    Join(TextParts(vs), "\n")
  }

  /** The parts are exactly the stripped texts of the truthy values: one per
      truthy value, none for `None`, `""`, `0` and `False`. */
  lemma {:induction false} TextPartsCount(vs: seq<Value>)
    ensures |TextParts(vs)| == |set i | 0 <= i < |vs| && Truthy(vs[i])|
    ensures TextParts(vs) == [] <==> forall i :: 0 <= i < |vs| ==> !Truthy(vs[i])
  {
    if |vs| > 0 {
      var n := |vs| - 1;
      TextPartsCount(vs[..n]);
      var before := set i | 0 <= i < n && Truthy(vs[..n][i]);
      var now := set i | 0 <= i < |vs| && Truthy(vs[i]);
      assert before == set i | 0 <= i < n && Truthy(vs[i]);
      if Truthy(vs[n]) {
        assert now == before + {n};
      } else {
        assert now == before;
      }
    }
  }

  /** A falsy value (`None`, `""`, `0`, `False`) adds nothing to the text. */
  lemma {:induction false} FalsyAddsNothing(vs: seq<Value>, v: Value)
    requires !Truthy(v)
    ensures TextParts(vs + [v]) == TextParts(vs)
  {
    assert (vs + [v])[..|vs|] == vs;
  }

  /** A truthy value adds its stripped text as a new line. */
  lemma {:induction false} TruthyAddsLine(vs: seq<Value>, v: Value)
    requires Truthy(v)
    ensures TextParts(vs + [v]) == TextParts(vs) + [Strip(Show(v))]
    ensures GroupText(vs + [v]) == if TextParts(vs) == [] then Strip(Show(v))
                                   else GroupText(vs) + "\n" + Strip(Show(v))
  {
    assert (vs + [v])[..|vs|] == vs;
    if TextParts(vs) != [] {
      JoinSnoc(TextParts(vs), Strip(Show(v)), "\n");
    }
  }

  /** A text of white space only is truthy, so it adds an empty line. */
  lemma {:induction false} BlankTextAddsEmptyLine(vs: seq<Value>, s: string)
    requires s != "" && AllSpace(s)
    ensures TextParts(vs + [Str(s)]) == TextParts(vs) + [""]
  {
    StripEmptyIff(s);
    TruthyAddsLine(vs, Str(s));
  }

  /** Adding one more row to the rows seen so far either extends the last
      run (the row continues it) or opens a new run. */
  lemma {:induction false} RunsOfSnoc(cont: seq<bool>, p: nat)
    requires p < |cont|
    ensures var g := RunsOf(cont[..p]);
      RunsOf(cont[..p + 1]) ==
        if p > 0 && cont[p] then g[..|g| - 1] + [Span(g[|g| - 1].first, p)]
        else g + [Span(p, p)]
  {
    assert cont[..p + 1][..p] == cont[..p];
  }

  // ---------------------------------------------------------------------
  // Phase 1: reading the sheet

  /** The header cell of the issue column: truthy, and equal to `name` once
      `str(...)` is stripped. */
  predicate IsHeader(v: Value, name: string) {
    Truthy(v) && Strip(Show(v)) == name
  }

  /** `col` is the first column of header row 3, scanning `ws[3]` from
      column A to `ws.max_column`, whose cell is the issue header. */
  ghost predicate IsFirstHeader(m: map<Cell, Value>, name: string, col: int) {
    && 1 <= col <= MaxColumnOf(m.Keys)
    && IsHeader(Get(m, Cell(HeaderRow, col)), name)
    && forall c :: 1 <= c < col ==> !IsHeader(Get(m, Cell(HeaderRow, c)), name)
  }

  /** No cell of header row 3 is the issue header. */
  ghost predicate NoHeader(m: map<Cell, Value>, name: string) {
    forall c :: 1 <= c <= MaxColumnOf(m.Keys) ==> !IsHeader(Get(m, Cell(HeaderRow, c)), name)
  }

  /** The key of a data row: the values of columns B up to the one before
      the issue column (none when the issue column is A or B). */
  function RowKey(m: map<Cell, Value>, row: int, target: int): (key: seq<Value>)
    ensures |key| == if target > FirstKeyColumn then target - FirstKeyColumn else 0
  {
    seq(if target > FirstKeyColumn then target - FirstKeyColumn else 0,
        j => Get(m, Cell(row, FirstKeyColumn + j)))
  }

  /** The keys of the data rows 4 .. `maxRow`, in order. */
  function DataKeys(m: map<Cell, Value>, target: int, maxRow: int): (ks: seq<seq<Value>>)
    ensures |ks| == if maxRow >= FirstDataRow then maxRow - FirstDataRow + 1 else 0
  {
    seq(if maxRow >= FirstDataRow then maxRow - FirstDataRow + 1 else 0,
        i => RowKey(m, FirstDataRow + i, target))
  }

  /** The key of the data row at position `i`. */
  lemma {:induction false} DataKeyAt(m: map<Cell, Value>, target: int, maxRow: int, i: int)
    requires 0 <= i < |DataKeys(m, target, maxRow)|
    ensures DataKeys(m, target, maxRow)[i] == RowKey(m, FirstDataRow + i, target)
  {
  }

  /** The rows `first .. last`, as Python's list of rows of a group. */
  function RowSpan(first: int, last: int): (rows: seq<int>)
    ensures |rows| == if last >= first then last - first + 1 else 0
    ensures |rows| > 0 ==> rows[0] == first && rows[|rows| - 1] == last
    decreases last - first
  {
    if last < first then [] else RowSpan(first, last - 1) + [last]
  }

  /** The issue-column values of the given rows. */
  function IssueValues(m: map<Cell, Value>, target: int, rows: seq<int>): (vs: seq<Value>)
    ensures |vs| == |rows|
  {
    seq(|rows|, i requires 0 <= i < |rows| => Get(m, Cell(rows[i], target)))
  }

  /** One entry of `merged_regions`. */
  datatype Region = Region(startRow: int, endRow: int, text: string)

  /** The region of a run: its first and last sheet rows and its joined text. */
  function RegionOf(m: map<Cell, Value>, target: int, s: Span): Region {
    var first := FirstDataRow + s.first;
    var last := FirstDataRow + s.last;
    Region(first, last, GroupText(IssueValues(m, target, RowSpan(first, last))))
  }

  function RegionsOf(m: map<Cell, Value>, target: int, spans: seq<Span>): (rs: seq<Region>)
    ensures |rs| == |spans|
  {
    if spans == [] then []
    else RegionsOf(m, target, spans[..|spans| - 1]) + [RegionOf(m, target, spans[|spans| - 1])]
  }

  /** The `k`-th region is the region of the `k`-th run. */
  lemma {:induction false} RegionsOfAt(m: map<Cell, Value>, target: int, spans: seq<Span>, k: nat)
    requires k < |spans|
    ensures RegionsOf(m, target, spans)[k] == RegionOf(m, target, spans[k])
  {
    if k < |spans| - 1 {
      RegionsOfAt(m, target, spans[..|spans| - 1], k);
    }
  }

  /** The regions `consolidate_issue_column` plans for a sheet whose last
      row is `maxRow`: one per run of equal keys, in row order. */
  function PlannedRegions(m: map<Cell, Value>, target: int, maxRow: int): seq<Region> {
    RegionsOf(m, target, Runs(DataKeys(m, target, maxRow)))
  }

  /** `current_group_key`: `None` before the first row, the sentinel string
      after the last row, a tuple of cell values otherwise. */
  datatype GroupKey = NoKey | EndOfData | Key(values: seq<Value>)

  /** Python `==` between two group keys: a tuple never equals `None` or
      the sentinel string. */
  predicate SameKey(a: GroupKey, b: GroupKey) {
    match (a, b)
    case (Key(x), Key(y)) => KeyEq(x, y)
    case (EndOfData, EndOfData) => true
    case (NoKey, NoKey) => true
    case _ => false
  }

  /** The loop over the rows of one group that collects `text_parts` and
      joins them. */
  method JoinGroupText(ws: Worksheet, target: int, rows: seq<int>) returns (text: string)
    ensures text == GroupText(IssueValues(ws.cells, target, rows))
  {
    var parts: seq<string> := [];
    for i := 0 to |rows|
      invariant parts == TextParts(IssueValues(ws.cells, target, rows[..i]))
    {
      var v := ws.At(Cell(rows[i], target));
      assert IssueValues(ws.cells, target, rows[..i + 1]) == IssueValues(ws.cells, target, rows[..i]) + [v];
      if Truthy(v) {
        TruthyAddsLine(IssueValues(ws.cells, target, rows[..i]), v);
        parts := parts + [Strip(Show(v))];
      } else {
        FalsyAddsNothing(IssueValues(ws.cells, target, rows[..i]), v);
      }
    }
    assert rows[..|rows|] == rows;
    text := Join(parts, "\n");
  }

  lemma {:induction false} RegionsOfSnoc(m: map<Cell, Value>, target: int, spans: seq<Span>, s: Span)
    ensures RegionsOf(m, target, spans + [s]) == RegionsOf(m, target, spans) + [RegionOf(m, target, s)]
  {
    assert (spans + [s])[..|spans|] == spans;
  }

  lemma {:induction false} RowSpanSnoc(first: int, last: int)
    requires first <= last + 1
    ensures RowSpan(first, last) + [last + 1] == RowSpan(first, last + 1)
  {
  }

  /** The runs part of the first loop's state at data position `p`: the runs
      of the data rows before it are `spans`, and the current key is the key
      of the last run. */
  ghost predicate RunsScanned(ks: seq<seq<Value>>, p: int, spans: seq<Span>, currentKey: GroupKey) {
    && 0 <= p <= |ks|
    && spans == RunsOf(Continues(ks)[..p])
    && (p == 0 ==> currentKey == NoKey)
    && (p > 0 ==>
          && |spans| > 0
          && spans[|spans| - 1].last == p - 1
          && currentKey == Key(ks[spans[|spans| - 1].first])
          && KeyEq(ks[spans[|spans| - 1].first], ks[spans[|spans| - 1].last]))
  }

  /** The groups part of the first loop's state at data position `p`: every
      run but the last is already a region, and the last one is the current
      group. */
  ghost predicate GroupsScanned(m: map<Cell, Value>, target: int, p: int, spans: seq<Span>,
                                regions: seq<Region>, currentRows: seq<int>) {
    && (p == 0 ==> currentRows == [] && regions == [])
    && (p > 0 ==>
          && |spans| > 0
          && regions == RegionsOf(m, target, spans[..|spans| - 1])
          && currentRows == RowSpan(FirstDataRow + spans[|spans| - 1].first, FirstDataRow + spans[|spans| - 1].last))
  }

  /** The state of the first loop when it reaches sheet row `row`. */
  ghost predicate Scanned(m: map<Cell, Value>, target: int, ks: seq<seq<Value>>, row: int, spans: seq<Span>,
                          regions: seq<Region>, currentKey: GroupKey, currentRows: seq<int>) {
    && RunsScanned(ks, row - FirstDataRow, spans, currentKey)
    && GroupsScanned(m, target, row - FirstDataRow, spans, regions, currentRows)
  }

  /** The region recorded when the current group is flushed. */
  function Flushed(regions: seq<Region>, currentRows: seq<int>, text: string): seq<Region> {
    if currentRows != [] then regions + [Region(currentRows[0], currentRows[|currentRows| - 1], text)]
    else regions
  }

  /** Flushing the current group turns its run into a region. */
  lemma {:induction false} ScanFlush(m: map<Cell, Value>, target: int, p: int, spans: seq<Span>,
                  regions: seq<Region>, currentRows: seq<int>, text: string)
    requires GroupsScanned(m, target, p, spans, regions, currentRows)
    requires p >= 0 && (p == 0 ==> spans == [])
    requires |spans| > 0 ==> spans[|spans| - 1].first <= spans[|spans| - 1].last
    requires currentRows != [] ==> text == GroupText(IssueValues(m, target, currentRows))
    ensures Flushed(regions, currentRows, text) == RegionsOf(m, target, spans)
  {
    if p > 0 {
      FlushLast(m, target, spans[|spans| - 1], currentRows, text);
      RegionsOfLast(m, target, spans);
    }
  }

  /** The regions of runs are those of all but the last, then the last one's. */
  lemma {:induction false} RegionsOfLast(m: map<Cell, Value>, target: int, spans: seq<Span>)
    requires |spans| > 0
    ensures RegionsOf(m, target, spans) == RegionsOf(m, target, spans[..|spans| - 1]) + [RegionOf(m, target, spans[|spans| - 1])]
  {
  }

  /** The current group's region is the region of its run. */
  lemma {:induction false} FlushLast(m: map<Cell, Value>, target: int, s: Span, currentRows: seq<int>, text: string)
    requires s.first <= s.last
    requires currentRows == RowSpan(FirstDataRow + s.first, FirstDataRow + s.last)
    requires text == GroupText(IssueValues(m, target, currentRows))
    ensures currentRows != []
    ensures Region(currentRows[0], currentRows[|currentRows| - 1], text) == RegionOf(m, target, s)
  {
  }

  /** At the sentinel row the flushed regions are those of all the runs. */
  lemma {:induction false} ScanEnd(m: map<Cell, Value>, target: int, ks: seq<seq<Value>>, row: int, spans: seq<Span>,
                regions: seq<Region>, currentKey: GroupKey, currentRows: seq<int>, text: string)
    requires Scanned(m, target, ks, row, spans, regions, currentKey, currentRows)
    requires row - FirstDataRow == |ks|
    requires currentRows != [] ==> text == GroupText(IssueValues(m, target, currentRows))
    ensures Flushed(regions, currentRows, text) == RegionsOf(m, target, Runs(ks))
  {
    ScanFlush(m, target, row - FirstDataRow, spans, regions, currentRows, text);
    assert Continues(ks)[..|ks|] == Continues(ks);
  }

  /** A row whose key differs from the current group's starts a new run. */
  lemma {:induction false} ScanNewRun(m: map<Cell, Value>, target: int, ks: seq<seq<Value>>, row: int, spans: seq<Span>,
                   regions: seq<Region>, currentKey: GroupKey, currentRows: seq<int>, text: string)
    requires Scanned(m, target, ks, row, spans, regions, currentKey, currentRows)
    requires row - FirstDataRow < |ks| && !SameKey(Key(ks[row - FirstDataRow]), currentKey)
    requires currentRows != [] ==> text == GroupText(IssueValues(m, target, currentRows))
    ensures Scanned(m, target, ks, row + 1, spans + [Span(row - FirstDataRow, row - FirstDataRow)],
                    Flushed(regions, currentRows, text), Key(ks[row - FirstDataRow]), [row])
  {
    NewRunRuns(ks, row - FirstDataRow, spans, currentKey);
    NewRunGroups(m, target, row - FirstDataRow, spans, regions, currentRows, text);
  }

  lemma {:induction false} NewRunRuns(ks: seq<seq<Value>>, p: int, spans: seq<Span>, currentKey: GroupKey)
    requires RunsScanned(ks, p, spans, currentKey)
    requires p < |ks| && !SameKey(Key(ks[p]), currentKey)
    ensures p >= 0 && (p == 0 ==> spans == [])
    ensures |spans| > 0 ==> spans[|spans| - 1].first <= spans[|spans| - 1].last
    ensures RunsScanned(ks, p + 1, spans + [Span(p, p)], Key(ks[p]))
  {
    if p > 0 {
      NewRunKeys(ks, spans[|spans| - 1].first, p);
    }
    RunsOpen(Continues(ks), spans, p);
    KeyEqEquivalence(ks[p], ks[p], ks[p]);
  }

  lemma {:induction false} NewRunGroups(m: map<Cell, Value>, target: int, p: int, spans: seq<Span>,
                     regions: seq<Region>, currentRows: seq<int>, text: string)
    requires GroupsScanned(m, target, p, spans, regions, currentRows)
    requires p >= 0 && (p == 0 ==> spans == [])
    requires |spans| > 0 ==> spans[|spans| - 1].first <= spans[|spans| - 1].last
    requires currentRows != [] ==> text == GroupText(IssueValues(m, target, currentRows))
    ensures GroupsScanned(m, target, p + 1, spans + [Span(p, p)], Flushed(regions, currentRows, text), [FirstDataRow + p])
  {
    ScanFlush(m, target, p, spans, regions, currentRows, text);
    var spans' := spans + [Span(p, p)];
    assert spans'[..|spans'| - 1] == spans;
    assert RowSpan(FirstDataRow + p, FirstDataRow + p) == [FirstDataRow + p];
  }

  /** A row whose key differs from the first key of the current run differs
      from the previous row's key too, and so starts a new run. */
  lemma {:induction false} NewRunKeys(ks: seq<seq<Value>>, first: nat, p: nat)
    requires first < p < |ks|
    requires KeyEq(ks[first], ks[p - 1]) && !KeyEq(ks[p], ks[first])
    ensures !Continues(ks)[p]
  {
    KeyEqEquivalence(ks[p], ks[p - 1], ks[first]);
    KeyEqEquivalence(ks[first], ks[p - 1], ks[p]);
  }

  /** A position that does not continue opens a new run after the runs of
      the prefix before it. */
  lemma {:induction false} RunsOpen(cont: seq<bool>, spans: seq<Span>, p: nat)
    requires p < |cont| && (p == 0 || !cont[p])
    requires spans == RunsOf(cont[..p])
    ensures spans + [Span(p, p)] == RunsOf(cont[..p + 1])
  {
    RunsOfSnoc(cont, p);
  }

  /** The runs after the current one grows by the data row at position `p`. */
  function ExtendLast(spans: seq<Span>, p: nat): seq<Span>
    requires |spans| > 0
  {
    spans[..|spans| - 1] + [Span(spans[|spans| - 1].first, p)]
  }

  /** A row whose key equals the current group's joins the current run. */
  lemma {:induction false} ScanSameRun(m: map<Cell, Value>, target: int, ks: seq<seq<Value>>, row: int, spans: seq<Span>,
                    regions: seq<Region>, currentKey: GroupKey, currentRows: seq<int>)
    requires Scanned(m, target, ks, row, spans, regions, currentKey, currentRows)
    requires row - FirstDataRow < |ks| && SameKey(Key(ks[row - FirstDataRow]), currentKey)
    ensures row > FirstDataRow && |spans| > 0
    ensures Scanned(m, target, ks, row + 1, ExtendLast(spans, row - FirstDataRow), regions, currentKey, currentRows + [row])
  {
    SameRunRuns(ks, row - FirstDataRow, spans, currentKey);
    SameRunGroups(m, target, row - FirstDataRow, spans, regions, currentRows);
  }

  lemma {:induction false} SameRunRuns(ks: seq<seq<Value>>, p: int, spans: seq<Span>, currentKey: GroupKey)
    requires RunsScanned(ks, p, spans, currentKey)
    requires p < |ks| && SameKey(Key(ks[p]), currentKey)
    ensures p > 0 && |spans| > 0
    ensures RunsScanned(ks, p + 1, ExtendLast(spans, p), currentKey)
  {
    var last := spans[|spans| - 1];
    SameRunKeys(ks, last.first, p);
    RunsExtend(Continues(ks), spans, p);
  }

  lemma {:induction false} SameRunGroups(m: map<Cell, Value>, target: int, p: int, spans: seq<Span>,
                      regions: seq<Region>, currentRows: seq<int>)
    requires GroupsScanned(m, target, p, spans, regions, currentRows)
    requires p > 0 && |spans| > 0 && spans[|spans| - 1].first <= spans[|spans| - 1].last == p - 1
    ensures GroupsScanned(m, target, p + 1, ExtendLast(spans, p), regions, currentRows + [FirstDataRow + p])
  {
    var last := spans[|spans| - 1];
    RowSpanSnoc(FirstDataRow + last.first, FirstDataRow + last.last);
    var spans' := ExtendLast(spans, p);
    assert spans'[..|spans'| - 1] == spans[..|spans| - 1];
  }

  /** A row whose key equals the first key of the current run also equals
      the previous row's key, and so continues the run. */
  lemma {:induction false} SameRunKeys(ks: seq<seq<Value>>, first: nat, p: nat)
    requires first < p < |ks|
    requires KeyEq(ks[first], ks[p - 1]) && KeyEq(ks[p], ks[first])
    ensures Continues(ks)[p] && KeyEq(ks[first], ks[p])
  {
    KeyEqEquivalence(ks[p - 1], ks[first], ks[p]);
    KeyEqEquivalence(ks[p], ks[first], ks[first]);
  }

  /** A continuing position extends the last run of the prefix before it. */
  lemma {:induction false} RunsExtend(cont: seq<bool>, spans: seq<Span>, p: nat)
    requires 0 < p < |cont| && cont[p]
    requires spans == RunsOf(cont[..p])
    ensures |spans| > 0
    ensures ExtendLast(spans, p) == RunsOf(cont[..p + 1])
  {
    RunsOfSnoc(cont, p);
  }

  /** The first loop of `consolidate_issue_column`: walk rows 4 ..
      `maxRow + 1` (the last one standing for the end-of-data sentinel) and
      record a region each time the key changes. */
  method CollectRegions(ws: Worksheet, target: int, maxRow: int) returns (regions: seq<Region>)
    ensures regions == PlannedRegions(ws.cells, target, maxRow)
  {
    ghost var ks := DataKeys(ws.cells, target, maxRow);
    ghost var spans: seq<Span> := [];
    var currentKey := NoKey;
    var currentRows: seq<int> := [];
    regions := [];
    var row := FirstDataRow;
    while row < maxRow + 2
      invariant FirstDataRow <= row <= if maxRow + 2 >= FirstDataRow then maxRow + 2 else FirstDataRow
      invariant row == FirstDataRow ==> regions == []
      invariant row <= maxRow + 1 ==> Scanned(ws.cells, target, ks, row, spans, regions, currentKey, currentRows)
      invariant row == maxRow + 2 ==> regions == RegionsOf(ws.cells, target, Runs(ks))
    {
      var key := if row <= maxRow then Key(RowKey(ws.cells, row, target)) else EndOfData;
      if row <= maxRow {
        assert key == Key(ks[row - FirstDataRow]);
      }
      if !SameKey(key, currentKey) {
        var text := "";
        if currentRows != [] {
          text := JoinGroupText(ws, target, currentRows);
        }
        if row <= maxRow {
          ScanNewRun(ws.cells, target, ks, row, spans, regions, currentKey, currentRows, text);
          spans := spans + [Span(row - FirstDataRow, row - FirstDataRow)];
        } else {
          ScanEnd(ws.cells, target, ks, row, spans, regions, currentKey, currentRows, text);
        }
        regions := Flushed(regions, currentRows, text);
        currentKey := key;
        currentRows := [row];
      } else {
        ScanSameRun(ws.cells, target, ks, row, spans, regions, currentKey, currentRows);
        spans := ExtendLast(spans, row - FirstDataRow);
        currentRows := currentRows + [row];
      }
      row := row + 1;
    }
    if row != maxRow + 2 {
      assert |ks| == 0 && Runs(ks) == [];
    }
  }

  // ---------------------------------------------------------------------
  // The planned regions in sheet rows

  /** The regions lie on the data rows in increasing order, without overlap. */
  predicate Ascending(regions: seq<Region>) {
    && (forall k :: 0 <= k < |regions| ==> FirstDataRow <= regions[k].startRow <= regions[k].endRow)
    && (forall j, k :: 0 <= j < k < |regions| ==> regions[j].endRow < regions[k].startRow)
  }

  /** The planned regions tile the data rows 4 .. `maxRow` in order: the
      first starts at row 4, each next one starts right after the previous
      one ends, and the last ends at `maxRow`; a sheet without data rows has
      none. */
  lemma {:induction false} PlannedRegionsTile(m: map<Cell, Value>, target: int, maxRow: int)
    ensures var rs := PlannedRegions(m, target, maxRow);
      && Ascending(rs)
      && (|rs| > 0 <==> maxRow >= FirstDataRow)
      && (|rs| > 0 ==> rs[0].startRow == FirstDataRow && rs[|rs| - 1].endRow == maxRow)
      && (forall k :: 0 <= k < |rs| ==> rs[k].endRow <= maxRow)
      && (forall k :: 0 < k < |rs| ==> rs[k].startRow == rs[k - 1].endRow + 1)
  {
    var ks := DataKeys(m, target, maxRow);
    RunsTile(ks);
    RegionsOfTiling(m, target, |ks|, Runs(ks));
  }

  /** The regions of runs that tile `n` data rows lie in order on the sheet
      rows 4 .. 4 + n - 1, each starting right after the previous one. */
  lemma {:induction false} RegionsOfTiling(m: map<Cell, Value>, target: int, n: int, spans: seq<Span>)
    requires Tiles(n, spans)
    ensures var rs := RegionsOf(m, target, spans);
      && Ascending(rs)
      && (|rs| > 0 <==> n > 0)
      && (|rs| > 0 ==> rs[0].startRow == FirstDataRow && rs[|rs| - 1].endRow == FirstDataRow + n - 1)
      && (forall k :: 0 <= k < |rs| ==> rs[k].endRow <= FirstDataRow + n - 1)
      && (forall k :: 0 < k < |rs| ==> rs[k].startRow == rs[k - 1].endRow + 1)
  {
    var rs := RegionsOf(m, target, spans);
    TilesBounds(n, spans);
    forall k | 0 <= k < |rs|
      ensures rs[k].startRow == FirstDataRow + spans[k].first && rs[k].endRow == FirstDataRow + spans[k].last
    {
      RegionsOfAt(m, target, spans, k);
    }
  }

  /** With the Issue column in column A or B there are no key columns, so
      the data rows form a single region. */
  lemma {:induction false} SingleRegionWithoutKeys(m: map<Cell, Value>, target: int, maxRow: int)
    requires target <= FirstKeyColumn && maxRow >= FirstDataRow
    ensures var rs := PlannedRegions(m, target, maxRow);
      |rs| == 1 && rs[0].startRow == FirstDataRow && rs[0].endRow == maxRow
  {
    var ks := DataKeys(m, target, maxRow);
    forall i | 0 <= i < |ks|
      ensures ks[i] == []
    {
      assert ks[i] == RowKey(m, FirstDataRow + i, target);
    }
    EmptyKeysOneRun(ks);
  }

  /** The rows of the `k`-th planned region are those of the `k`-th run. */
  lemma {:induction false} RegionRows(m: map<Cell, Value>, target: int, maxRow: int, k: nat)
    requires k < |PlannedRegions(m, target, maxRow)|
    ensures var spans := Runs(DataKeys(m, target, maxRow));
      && k < |spans|
      && PlannedRegions(m, target, maxRow)[k].startRow == FirstDataRow + spans[k].first
      && PlannedRegions(m, target, maxRow)[k].endRow == FirstDataRow + spans[k].last
  {
    RegionsOfAt(m, target, Runs(DataKeys(m, target, maxRow)), k);
  }

  /** Inside a planned region every row's key equals the key of the
      region's first row. */
  lemma {:induction false} PlannedRegionSameKeys(m: map<Cell, Value>, target: int, maxRow: int, k: nat, row: int)
    requires k < |PlannedRegions(m, target, maxRow)|
    requires PlannedRegions(m, target, maxRow)[k].startRow <= row <= PlannedRegions(m, target, maxRow)[k].endRow
    ensures KeyEq(RowKey(m, PlannedRegions(m, target, maxRow)[k].startRow, target), RowKey(m, row, target))
  {
    var ks := DataKeys(m, target, maxRow);
    RegionRows(m, target, maxRow, k);
    var f := Runs(ks)[k].first;
    RunKeysEqual(ks, k, row - FirstDataRow);
    DataKeyAt(m, target, maxRow, f);
    DataKeyAt(m, target, maxRow, row - FirstDataRow);
  }

  /** The key of a planned region's first row differs from the key of the
      row just above it, so the regions are maximal runs of equal keys. */
  lemma {:induction false} PlannedRegionKeyChanges(m: map<Cell, Value>, target: int, maxRow: int, k: nat)
    requires 0 < k < |PlannedRegions(m, target, maxRow)|
    ensures var s := PlannedRegions(m, target, maxRow)[k].startRow;
      !KeyEq(RowKey(m, s - 1, target), RowKey(m, s, target))
  {
    var ks := DataKeys(m, target, maxRow);
    RegionRows(m, target, maxRow, k);
    var f := Runs(ks)[k].first;
    RunStartCuts(ks, k);
    DataKeyAt(m, target, maxRow, f);
    DataKeyAt(m, target, maxRow, f - 1);
  }

  // ---------------------------------------------------------------------
  // Phase 2: writing the regions

  /** The vertical range of the issue column that a region merges. */
  function RegionRange(g: Region, target: int): (r: Range)
    ensures forall c :: r.Covers(c) <==> c.col == target && g.startRow <= c.row <= g.endRow
  {
    Range(g.startRow, target, g.endRow, target)
  }

  /** `c` is an issue cell of one of the first `n` regions. */
  ghost predicate Covered(regions: seq<Region>, n: nat, target: int, c: Cell)
    requires n <= |regions|
  {
    exists k :: 0 <= k < n && RegionRange(regions[k], target).Covers(c)
  }

  /** The ranges merged for those of the first `n` regions that have more
      than one row. */
  function MergedRanges(regions: seq<Region>, n: nat, target: int): (rs: set<Range>)
    requires n <= |regions|
    ensures forall r :: r in rs <==> exists k :: 0 <= k < n && regions[k].endRow > regions[k].startRow
                                                   && r == RegionRange(regions[k], target)
  {
    set k | 0 <= k < n && regions[k].endRow > regions[k].startRow :: RegionRange(regions[k], target)
  }

  /** Each of the first `n` regions' first issue cell holds its text, as a
      cell stores it. */
  ghost predicate TextsWritten(m: map<Cell, Value>, target: int, regions: seq<Region>, n: nat)
    requires n <= |regions|
  {
    forall k :: 0 <= k < n ==> Get(m, Cell(regions[k].startRow, target)) == Stored(Str(regions[k].text))
  }

  /** The issue cells of the first `n` regions exist, and those below a
      region's first row are empty merged cells. */
  ghost predicate CellsEmptied(m: map<Cell, Value>, target: int, regions: seq<Region>, n: nat)
    requires n <= |regions|
  {
    && (forall c :: Covered(regions, n, target, c) ==> c in m)
    && (forall k, c ::
          0 <= k < n && RegionRange(regions[k], target).Covers(c) && c.row != regions[k].startRow
          ==> Get(m, c) == Null)
  }

  /** Every cell outside the issue cells of the first `n` regions is as in `m0`. */
  ghost predicate OthersKept(m0: map<Cell, Value>, m: map<Cell, Value>, target: int, regions: seq<Region>, n: nat)
    requires n <= |regions|
  {
    forall c :: !Covered(regions, n, target, c) ==> (c in m <==> c in m0) && Get(m, c) == Get(m0, c)
  }

  /** The effect of writing the first `n` regions on cells `m0` and merged
      ranges `merged0`: each region's first issue cell holds its text, its
      other issue cells exist and are empty merged cells, every other cell is
      as it was, and the ranges of the regions of several rows are merged. */
  ghost predicate Applied(m0: map<Cell, Value>, merged0: set<Range>, m: map<Cell, Value>, merged: set<Range>,
                          target: int, regions: seq<Region>, n: nat)
    requires n <= |regions|
  {
    && TextsWritten(m, target, regions, n)
    && CellsEmptied(m, target, regions, n)
    && OthersKept(m0, m, target, regions, n)
    && merged == merged0 + MergedRanges(regions, n, target)
  }

  /** Writing a region's text to its first issue cell is refused (openpyxl
      raises) when that cell is covered, but not anchored, by a merged range. */
  predicate StartBlocked(merged: set<Range>, target: int, g: Region) {
    MergedNonAnchor(merged, Cell(g.startRow, target))
  }

  /** The first region whose write is refused, if any. */
  function FirstRefusal(merged: set<Range>, target: int, regions: seq<Region>): (r: Option<nat>)
    ensures r.None? <==> forall k :: 0 <= k < |regions| ==> !StartBlocked(merged, target, regions[k])
    ensures r.Some? ==> r.value < |regions| && StartBlocked(merged, target, regions[r.value])
                        && forall k :: 0 <= k < r.value ==> !StartBlocked(merged, target, regions[k])
  {
    if |regions| == 0 then None
    else if StartBlocked(merged, target, regions[0]) then Some(0)
    else match FirstRefusal(merged, target, regions[1..])
      case None => None
      case Some(i) => Some(i + 1)
  }

  /** The ranges merged by earlier regions never block a later region, so
      whether a write is refused depends on the sheet's own merged ranges. */
  lemma {:induction false} BlockedOnlyByOriginal(merged0: set<Range>, target: int, regions: seq<Region>, k: nat)
    requires Ascending(regions) && k < |regions|
    ensures StartBlocked(merged0 + MergedRanges(regions, k, target), target, regions[k])
            <==> StartBlocked(merged0, target, regions[k])
  {
    var c := Cell(regions[k].startRow, target);
    forall r | r in MergedRanges(regions, k, target)
      ensures !r.Covers(c)
    {
      var j :| 0 <= j < k && r == RegionRange(regions[j], target);
      assert regions[j].endRow < regions[k].startRow;
    }
  }

  /** The issue cells of the first `k + 1` regions are those of the first
      `k` and those of region `k`, which lie below all the earlier ones. */
  lemma {:induction false} CoveredSnoc(regions: seq<Region>, target: int, k: nat)
    requires Ascending(regions) && k < |regions|
    ensures forall c :: Covered(regions, k + 1, target, c) <==>
                          Covered(regions, k, target, c) || RegionRange(regions[k], target).Covers(c)
    ensures forall c :: Covered(regions, k, target, c) ==> c.row < regions[k].startRow
  {
    forall c | Covered(regions, k, target, c)
      ensures c.row < regions[k].startRow
    {
      var j :| 0 <= j < k && RegionRange(regions[j], target).Covers(c);
      assert regions[j].endRow < regions[k].startRow;
    }
  }

  /** Region `k` adds its range to the merged ranges exactly when it has
      several rows. */
  lemma {:induction false} MergedRangesSnoc(regions: seq<Region>, target: int, k: nat)
    requires k < |regions|
    ensures MergedRanges(regions, k + 1, target) ==
              MergedRanges(regions, k, target)
              + if regions[k].endRow > regions[k].startRow then {RegionRange(regions[k], target)} else {}
  {
  }

  /** Writing one region: its first issue cell receives the text and, when
      it has several rows, its issue cells are merged, which empties the others. */
  lemma {:induction false} WriteRegion(m1: map<Cell, Value>, merged1: set<Range>, m2: map<Cell, Value>, merged2: set<Range>,
                    target: int, g: Region)
    requires g.startRow <= g.endRow
    requires var written := m1[Cell(g.startRow, target) := Stored(Str(g.text))];
      if g.endRow > g.startRow then
        m2 == MergedInto(written, RegionRange(g, target)) && merged2 == merged1 + {RegionRange(g, target)}
      else m2 == written && merged2 == merged1
    ensures RegionWritten(m1, m2, target, g)
    ensures merged2 == merged1 + if g.endRow > g.startRow then {RegionRange(g, target)} else {}
  {
  }

  /** How the cells change when region `k` is written (see `WriteRegion`). */
  ghost predicate RegionWritten(m1: map<Cell, Value>, m2: map<Cell, Value>, target: int, g: Region) {
    && (forall c :: c in m2 <==> c in m1 || RegionRange(g, target).Covers(c))
    && (forall c :: Get(m2, c) == if !RegionRange(g, target).Covers(c) then Get(m1, c)
                                  else if c.row == g.startRow then Stored(Str(g.text)) else Null)
  }

  lemma {:induction false} TextsStep(m1: map<Cell, Value>, m2: map<Cell, Value>, target: int, regions: seq<Region>, k: nat)
    requires Ascending(regions) && k < |regions|
    requires TextsWritten(m1, target, regions, k) && RegionWritten(m1, m2, target, regions[k])
    ensures TextsWritten(m2, target, regions, k + 1)
  {
    forall i | 0 <= i < k + 1
      ensures Get(m2, Cell(regions[i].startRow, target)) == Stored(Str(regions[i].text))
    {
      if i < k {
        assert regions[i].endRow < regions[k].startRow;
        assert !RegionRange(regions[k], target).Covers(Cell(regions[i].startRow, target));
      }
    }
  }

  lemma {:induction false} EmptiedStep(m1: map<Cell, Value>, m2: map<Cell, Value>, target: int, regions: seq<Region>, k: nat)
    requires Ascending(regions) && k < |regions|
    requires CellsEmptied(m1, target, regions, k) && RegionWritten(m1, m2, target, regions[k])
    ensures CellsEmptied(m2, target, regions, k + 1)
  {
    CoveredSnoc(regions, target, k);
    forall i, c | 0 <= i < k + 1 && RegionRange(regions[i], target).Covers(c) && c.row != regions[i].startRow
      ensures Get(m2, c) == Null
    {
      if i < k {
        assert regions[i].endRow < regions[k].startRow;
        assert !RegionRange(regions[k], target).Covers(c);
      }
    }
  }

  lemma {:induction false} KeptStep(m0: map<Cell, Value>, m1: map<Cell, Value>, m2: map<Cell, Value>, target: int,
                 regions: seq<Region>, k: nat)
    requires Ascending(regions) && k < |regions|
    requires OthersKept(m0, m1, target, regions, k) && RegionWritten(m1, m2, target, regions[k])
    ensures OthersKept(m0, m2, target, regions, k + 1)
  {
    CoveredSnoc(regions, target, k);
  }

  /** Writing one more region, after all the earlier ones, extends the effect. */
  lemma {:induction false} AppliedStep(m0: map<Cell, Value>, merged0: set<Range>, m1: map<Cell, Value>, merged1: set<Range>,
                    m2: map<Cell, Value>, merged2: set<Range>, target: int, regions: seq<Region>, k: nat)
    requires Ascending(regions) && k < |regions|
    requires Applied(m0, merged0, m1, merged1, target, regions, k)
    requires RegionWritten(m1, m2, target, regions[k])
    requires merged2 == merged1 + if regions[k].endRow > regions[k].startRow then {RegionRange(regions[k], target)} else {}
    ensures Applied(m0, merged0, m2, merged2, target, regions, k + 1)
  {
    TextsStep(m1, m2, target, regions, k);
    EmptiedStep(m1, m2, target, regions, k);
    KeptStep(m0, m1, m2, target, regions, k);
    MergedRangesSnoc(regions, target, k);
  }

  /** One pass of the second loop of `consolidate_issue_column`: write the
      text of region `k` into its first issue cell and merge its issue cells
      when it has several rows; nothing changes when the write is refused. */
  method WriteRegionAt(ws: Worksheet, target: int, regions: seq<Region>, k: nat,
                       ghost m0: map<Cell, Value>, ghost merged0: set<Range>) returns (ok: bool)
    requires ws.Valid() && target >= 1 && Ascending(regions) && k < |regions|
    requires Applied(m0, merged0, ws.cells, ws.merged, target, regions, k)
    requires forall j :: 0 <= j < k ==> !StartBlocked(merged0, target, regions[j])
    modifies ws
    ensures ws.Valid()
    ensures ok == !StartBlocked(merged0, target, regions[k])
    ensures ok ==> Applied(m0, merged0, ws.cells, ws.merged, target, regions, k + 1)
    ensures !ok ==> && FirstRefusal(merged0, target, regions) == Some(k)
                    && Applied(m0, merged0, ws.cells, ws.merged, target, regions, k)
  {
    var g := regions[k];
    BlockedOnlyByOriginal(merged0, target, regions, k);
    ghost var m1, merged1 := ws.cells, ws.merged;
    ok := ws.SetValue(Cell(g.startRow, target), Str(g.text));
    if ok {
      if g.endRow > g.startRow {
        ws.MergeCells(RegionRange(g, target));
      }
      WriteRegion(m1, merged1, ws.cells, ws.merged, target, g);
      AppliedStep(m0, merged0, m1, merged1, ws.cells, ws.merged, target, regions, k);
    } else {
      FirstRefusalAt(merged0, target, regions, k);
    }
  }

  /** The second loop of `consolidate_issue_column`: write every region in
      turn. The first write to a merged cell other than a range's top-left
      one raises, leaving the regions before it written. */
  method ApplyRegions(ws: Worksheet, target: int, regions: seq<Region>) returns (refused: Option<Cell>)
    requires ws.Valid() && target >= 1 && Ascending(regions)
    modifies ws
    ensures ws.Valid()
    ensures var fr := FirstRefusal(old(ws.merged), target, regions);
      && (fr.None? ==> refused == None && Applied(old(ws.cells), old(ws.merged), ws.cells, ws.merged, target, regions, |regions|))
      && (fr.Some? ==> refused == Some(Cell(regions[fr.value].startRow, target))
                       && Applied(old(ws.cells), old(ws.merged), ws.cells, ws.merged, target, regions, fr.value))
  {
    ghost var m0, merged0 := ws.cells, ws.merged;
    var k := 0;
    while k < |regions|
      invariant 0 <= k <= |regions| && ws.Valid()
      invariant forall j :: 0 <= j < k ==> !StartBlocked(merged0, target, regions[j])
      invariant Applied(m0, merged0, ws.cells, ws.merged, target, regions, k)
    {
      var ok := WriteRegionAt(ws, target, regions, k, m0, merged0);
      if !ok {
        return Some(Cell(regions[k].startRow, target));
      }
      k := k + 1;
    }
    refused := None;
  }

  /** The first refusal is at `k` when region `k` is blocked and none before it is. */
  lemma {:induction false} FirstRefusalAt(merged: set<Range>, target: int, regions: seq<Region>, k: nat)
    requires k < |regions| && StartBlocked(merged, target, regions[k])
    requires forall j :: 0 <= j < k ==> !StartBlocked(merged, target, regions[j])
    ensures FirstRefusal(merged, target, regions) == Some(k)
  {
  }

  /** A sheet none of whose merged ranges reaches the data rows (as
      `preprocess_structure` leaves it) never refuses a write of the regions. */
  lemma {:induction false} NoRefusalWithoutDataMerges(merged: set<Range>, target: int, regions: seq<Region>)
    requires forall r :: r in merged ==> r.maxRow < FirstDataRow
    requires Ascending(regions)
    ensures FirstRefusal(merged, target, regions) == None
  {
    forall k | 0 <= k < |regions|
      ensures !StartBlocked(merged, target, regions[k])
    {
      assert regions[k].startRow >= FirstDataRow;
    }
  }

  /** The header search of `consolidate_issue_column`: the cells of row 3
      from column A to `ws.max_column`, the first one holding the header. */
  method FindIssueColumn(ws: Worksheet, name: string) returns (col: Option<int>)
    requires ws.Valid()
    ensures col.None? <==> NoHeader(ws.cells, name)
    ensures col.Some? ==> IsFirstHeader(ws.cells, name, col.value)
  {
    var maxRow, maxCol := ws.Dimensions();
    var c := 1;
    while c <= maxCol
      invariant 1 <= c <= maxCol + 1
      invariant forall j :: 1 <= j < c ==> !IsHeader(Get(ws.cells, Cell(HeaderRow, j)), name)
    {
      var v := ws.At(Cell(HeaderRow, c));
      if IsHeader(v, name) {
        return Some(c);
      }
      c := c + 1;
    }
    return None;
  }

  /** What `consolidate_issue_column` did to the selected sheet. */
  datatype Outcome =
    | ColumnNotFound
    | Consolidated(column: int)
    /** The write to `cell`, a merged cell, raised. */
    | WriteRefused(column: int, cell: Cell)

  /** A sheet with cells `m0` and merges `merged0` becomes one with cells `m`
      and merges `merged` by `consolidate_issue_column` looking for the
      header `name`, which reports `outcome`: nothing changes when no header
      matches; otherwise the planned regions of the first matching column are
      written in order, all of them, or those before the first whose top
      cell is a merged cell, whose write raises. */
  ghost predicate ConsolidatedFrom(m0: map<Cell, Value>, merged0: set<Range>, m: map<Cell, Value>, merged: set<Range>,
                                   name: string, outcome: Outcome) {
    && (outcome.ColumnNotFound? <==> NoHeader(m0, name))
    && (outcome.ColumnNotFound? ==> m == m0 && merged == merged0)
    && (!outcome.ColumnNotFound? ==>
          var col := outcome.column;
          var regions := PlannedRegions(m0, col, MaxRowOf(m0.Keys));
          var fr := FirstRefusal(merged0, col, regions);
          && IsFirstHeader(m0, name, col)
          && (outcome.Consolidated? <==> fr.None?)
          && (fr.None? ==> Applied(m0, merged0, m, merged, col, regions, |regions|))
          && (fr.Some? ==> outcome.cell == Cell(regions[fr.value].startRow, col)
                           && Applied(m0, merged0, m, merged, col, regions, fr.value)))
  }

  /** `consolidate_issue_column` on the selected worksheet. */
  method ConsolidateIssueColumn(ws: Worksheet, name: string) returns (outcome: Outcome)
    requires ws.Valid()
    modifies ws
    ensures ws.Valid()
    ensures ConsolidatedFrom(old(ws.cells), old(ws.merged), ws.cells, ws.merged, name, outcome)
    ensures (forall r :: r in old(ws.merged) ==> r.maxRow < FirstDataRow) ==> !outcome.WriteRefused?
  {
    var found := FindIssueColumn(ws, name);
    if found.None? {
      return ColumnNotFound;
    }
    var col := found.value;
    var maxRow, maxCol := ws.Dimensions();
    var regions := CollectRegions(ws, col, maxRow);
    PlannedRegionsTile(ws.cells, col, maxRow);
    if forall r :: r in ws.merged ==> r.maxRow < FirstDataRow {
      NoRefusalWithoutDataMerges(ws.merged, col, regions);
    }
    var refused := ApplyRegions(ws, col, regions);
    outcome := if refused.None? then Consolidated(col) else WriteRefused(col, refused.value);
  }
}

