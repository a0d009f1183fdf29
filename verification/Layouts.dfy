/** Layouts: an orbit projected onto a workarea without gaps or overlaps. */
module Layouts {
  import opened Optional
  import opened Partition
  import opened LedgerModel
  import opened LedgerTheorems

  datatype Rect = Rect(x: int, y: int, w: int, h: int) {
    predicate Has(px: int, py: int) { x <= px < x + w && y <= py < y + h }
  }

  datatype Workarea = Workarea(output: Rect, tiles: Rect)

  datatype Params = Params(master: Weight, columns: nat, stackPrimary: Weight, primaryRow: Weight) {
    /** Ratios into range; a NaN ratio stays NaN. */
    function Sanitised(): (p: Params) {
      Params(Clamped(master), if columns < 1 then 1 else if columns > 4 then 4 else columns,
             Clamped(stackPrimary), Clamped(primaryRow))
    }
  }

  datatype Placement = Placement(win: WinId, rect: Rect, focused: bool, occluded: bool)

  function Clamped(w: Weight): (c: Weight)
    ensures c.Num? ==> 0.15 <= c.value <= 0.85
    ensures c.NaN? <==> w.NaN?
  {
    if w.NaN? then w else if w.value < 0.15 then Num(0.15) else if w.value > 0.85 then Num(0.85) else w
  }

  /** `1 - w`. */
  function Rest(w: Weight): (r: Weight) { if w.NaN? then NaN else Num(1.0 - w.value) }

  function Same<T>(n: nat, x: T): (xs: seq<T>)
    ensures |xs| == n && forall i :: 0 <= i < n ==> xs[i] == x
  {
    if n == 0 then [] else Same(n - 1, x) + [x]
  }

  /** Two parts follow the ratio when there is one; anything else is split evenly. */
  function Weights(n: nat, ratio: Option<Weight>): (ws: seq<Weight>)
    requires n > 0
    ensures |ws| == n
  {
    if n == 2 && ratio.Some? then [ratio.value, Rest(ratio.value)] else Same(n, Num(1.0 / n as real))
  }

  function RowRatio(p: Option<Params>): (r: Option<Weight>) { if p.Some? then Some(p.value.primaryRow) else None }

  function ColumnRatio(p: Option<Params>): (r: Option<Weight>) { if p.Some? then Some(p.value.stackPrimary) else None }

  // ---- the grid --------------------------------------------------------------------------------

  /** Rectangles side by side from `x`. */
  function Row(x: int, y: int, h: int, widths: seq<int>): (rs: seq<Rect>)
    ensures |rs| == |widths|
  {
    if widths == [] then []
    else
      var k := |widths| - 1;
      Row(x, y, h, widths[..k]) + [Rect(x + Sum(widths[..k]), y, widths[k], h)]
  }

  function Columns(n: nat, cols: nat): (c: nat) { if cols < 1 || n == 0 then 1 else if cols > n then n else cols }

  function RowCount(n: nat, cols: nat): (r: nat)
    requires cols > 0
  {
    (n + cols - 1) / cols
  }

  function InRow(n: nat, cols: nat, row: nat): (k: nat) {
    if row * cols >= n then 0 else if cols < n - row * cols then cols else n - row * cols
  }

  function Widths(n: nat, w: int, cols: nat, p: Option<Params>, row: nat): (ws: seq<int>)
    ensures |ws| == InRow(n, cols, row)
  {
    if InRow(n, cols, row) == 0 then [] else Split(w, Weights(InRow(n, cols, row), ColumnRatio(p)))
  }

  /** The widths of the first `k` rows. */
  function AllWidths(n: nat, w: int, cols: nat, p: Option<Params>, k: nat): (wss: seq<seq<int>>)
    ensures |wss| == k
  {
    if k == 0 then [] else AllWidths(n, w, cols, p, k - 1) + [Widths(n, w, cols, p, k - 1)]
  }

  lemma {:induction false} WidthsAt(n: nat, w: int, cols: nat, p: Option<Params>, k: nat, i: nat)
    requires i < k
    ensures AllWidths(n, w, cols, p, k)[i] == Widths(n, w, cols, p, i)
  {
    if i < k - 1 {
      WidthsAt(n, w, cols, p, k - 1, i);
    }
  }

  /** Rows from the top down, each of its own height and widths. */
  function Stack(area: Rect, heights: seq<int>, widths: seq<seq<int>>): (rs: seq<Rect>)
    requires |widths| == |heights|
  {
    if heights == [] then []
    else
      var k := |heights| - 1;
      Stack(area, heights[..k], widths[..k]) + Row(area.x, area.y + Sum(heights[..k]), heights[k], widths[k])
  }

  function Grid(n: nat, area: Rect, columns: nat, p: Option<Params>): (rs: seq<Rect>) {
    if n == 0 || area.w <= 0 || area.h <= 0 then []
    else
      var cols := Columns(n, columns);
      RowsPositive(n, cols);
      var rows := RowCount(n, cols);
      Stack(area, Split(area.h, Weights(rows, RowRatio(p))), AllWidths(n, area.w, cols, p, rows))
  }

  // ---- row arithmetic ------------------------------------------------------------------------------

  lemma Ceiling(n: nat, cols: nat)
    requires cols > 0
    ensures RowCount(n, cols) * cols >= n
    ensures RowCount(n, cols) * cols < n + cols
  {
    var m := n + cols - 1;
    assert m == m / cols * cols + m % cols;
  }

  lemma RowsPositive(n: nat, cols: nat)
    requires n > 0 && cols > 0
    ensures RowCount(n, cols) > 0
  {
    Ceiling(n, cols);
  }

  lemma Monotone(a: nat, b: nat, c: nat)
    requires a <= b
    ensures a * c <= b * c
  {
    assert b * c == a * c + (b - a) * c;
  }

  /** No row of the grid is empty, so the loop never stops early. */
  lemma RowStarts(n: nat, cols: nat, row: nat)
    requires cols > 0 && row < RowCount(n, cols)
    ensures row * cols < n && InRow(n, cols, row) > 0
  {
    Ceiling(n, cols);
    Monotone(row, RowCount(n, cols) - 1, cols);
    assert (RowCount(n, cols) - 1) * cols == RowCount(n, cols) * cols - cols;
  }

  lemma NextRow(row: nat, cols: nat)
    ensures (row + 1) * cols == row * cols + cols
  {}

  lemma {:induction false} StackCount(n: nat, area: Rect, cols: nat, p: Option<Params>, heights: seq<int>)
    requires cols > 0 && |heights| <= RowCount(n, cols)
    ensures |Stack(area, heights, AllWidths(n, area.w, cols, p, |heights|))| == if |heights| * cols < n then |heights| * cols else n
    decreases |heights|
  {
    if heights != [] {
      var k := |heights| - 1;
      StackCount(n, area, cols, p, heights[..k]);
      assert AllWidths(n, area.w, cols, p, k + 1)[..k] == AllWidths(n, area.w, cols, p, k);
      RowStarts(n, cols, k);
      NextRow(k, cols);
    }
  }

  /** The grid deals out exactly as many rectangles as were asked for, or none on an empty area. */
  lemma GridCount(n: nat, area: Rect, columns: nat, p: Option<Params>)
    ensures |Grid(n, area, columns, p)| == if area.w > 0 && area.h > 0 then n else 0
  {
    if n > 0 && area.w > 0 && area.h > 0 {
      var cols := Columns(n, columns);
      Ceiling(n, cols);
      RowsPositive(n, cols);
      StackCount(n, area, cols, p, Split(area.h, Weights(RowCount(n, cols), RowRatio(p))));
    }
  }

  // ---- exact tiling ------------------------------------------------------------------------------------

  /** How many of the rectangles hold the pixel. */
  function Hits(rs: seq<Rect>, px: int, py: int): (k: nat) {
    if rs == [] then 0 else Hits(rs[..|rs| - 1], px, py) + if rs[|rs| - 1].Has(px, py) then 1 else 0
  }

  /** Every pixel of the area is in exactly one rectangle, every other pixel in none. */
  ghost predicate Tiles(rs: seq<Rect>, area: Rect) {
    forall px, py :: Hits(rs, px, py) == if area.Has(px, py) then 1 else 0
  }

  lemma {:induction false} HitsAppend(a: seq<Rect>, b: seq<Rect>, px: int, py: int)
    ensures Hits(a + b, px, py) == Hits(a, px, py) + Hits(b, px, py)
  {
    if b == [] {
      assert a + b == a;
    } else {
      assert (a + b)[..|a + b| - 1] == a + b[..|b| - 1];
      HitsAppend(a, b[..|b| - 1], px, py);
    }
  }

  predicate NonNegativeParts(ns: seq<int>) { forall i :: 0 <= i < |ns| ==> ns[i] >= 0 }

  lemma {:induction false} RowHits(x: int, y: int, h: int, widths: seq<int>, px: int, py: int)
    requires NonNegativeParts(widths)
    ensures Sum(widths) >= 0
    ensures Hits(Row(x, y, h, widths), px, py) == if Rect(x, y, Sum(widths), h).Has(px, py) then 1 else 0
  {
    if widths != [] {
      var k := |widths| - 1;
      RowHits(x, y, h, widths[..k], px, py);
      assert Row(x, y, h, widths)[..k] == Row(x, y, h, widths[..k]);
    }
  }

  lemma WidthsExact(n: nat, w: int, cols: nat, p: Option<Params>, row: nat)
    requires w > 0 && cols > 0 && row < RowCount(n, cols)
    ensures NonNegativeParts(Widths(n, w, cols, p, row)) && Sum(Widths(n, w, cols, p, row)) == w
  {
    RowStarts(n, cols, row);
    SplitExact(w, Weights(InRow(n, cols, row), ColumnRatio(p)));
  }

  predicate FullRows(w: int, widths: seq<seq<int>>) {
    forall i :: 0 <= i < |widths| ==> NonNegativeParts(widths[i]) && Sum(widths[i]) == w
  }

  lemma {:induction false} StackHits(area: Rect, heights: seq<int>, widths: seq<seq<int>>, px: int, py: int)
    requires area.w > 0 && |widths| == |heights| && NonNegativeParts(heights) && FullRows(area.w, widths)
    ensures Sum(heights) >= 0
    ensures Hits(Stack(area, heights, widths), px, py) == if area.(h := Sum(heights)).Has(px, py) then 1 else 0
    decreases |heights|
  {
    if heights != [] {
      var k := |heights| - 1;
      var y := area.y + Sum(heights[..k]);
      StackHits(area, heights[..k], widths[..k], px, py);
      RowHits(area.x, y, heights[k], widths[k], px, py);
      HitsAppend(Stack(area, heights[..k], widths[..k]), Row(area.x, y, heights[k], widths[k]), px, py);
    }
  }

  lemma GridTiles(n: nat, area: Rect, columns: nat, p: Option<Params>)
    requires n > 0 && area.w > 0 && area.h > 0
    ensures Tiles(Grid(n, area, columns, p), area)
  {
    var cols := Columns(n, columns);
    RowsPositive(n, cols);
    var rows := RowCount(n, cols);
    var heights, widths := Split(area.h, Weights(rows, RowRatio(p))), AllWidths(n, area.w, cols, p, rows);
    SplitExact(area.h, Weights(rows, RowRatio(p)));
    forall i | 0 <= i < rows ensures NonNegativeParts(widths[i]) && Sum(widths[i]) == area.w {
      WidthsAt(n, area.w, cols, p, rows, i);
      WidthsExact(n, area.w, cols, p, i);
    }
    forall px, py ensures Hits(Grid(n, area, columns, p), px, py) == if area.Has(px, py) then 1 else 0 {
      StackHits(area, heights, widths, px, py);
    }
  }

  // ---- the layouts -----------------------------------------------------------------------------------------

  /** Widths of the master column and of the stack. */
  function Halves(w: int, p: Params): (cs: seq<int>)
    ensures |cs| == 2
  {
    Split(w, [p.master, Rest(p.master)])
  }

  function StackArea(area: Rect, p: Params): (r: Rect) {
    Rect(area.x + Halves(area.w, p)[0], area.y, Halves(area.w, p)[1], area.h)
  }

  function TriptychRects(n: nat, area: Rect, p: Params): (rs: seq<Rect>)
    requires n > 0
  {
    if n == 1 then [area]
    else [area.(w := Halves(area.w, p)[0])] + Grid(n - 1, StackArea(area, p), p.columns, Some(p))
  }

  lemma OneHit(r: Rect, px: int, py: int)
    ensures Hits([r], px, py) == if r.Has(px, py) then 1 else 0
  {
    assert [r][..0] == [];
  }

  lemma SumOfTwo(cs: seq<int>)
    requires |cs| == 2
    ensures Sum(cs) == cs[0] + cs[1]
  {
    assert Sum(cs[..1]) == Sum(cs[..1][..0]) + cs[0];
  }

  lemma HalvesExact(w: int, p: Params)
    requires w > 0
    ensures Halves(w, p)[0] >= 0 && Halves(w, p)[1] >= 0 && Halves(w, p)[0] + Halves(w, p)[1] == w
  {
    SplitExact(w, [p.master, Rest(p.master)]);
    SumOfTwo(Halves(w, p));
  }

  /** Whatever the parameters, the master column and the stack tile the area exactly. */
  lemma TriptychTiles(n: nat, area: Rect, p: Params)
    requires n > 0 && area.w > 0 && area.h > 0
    ensures Tiles(TriptychRects(n, area, p), area)
  {
    HalvesExact(area.w, p);
    var master, stack := area.(w := Halves(area.w, p)[0]), StackArea(area, p);
    if n > 1 && stack.w > 0 {
      GridTiles(n - 1, stack, p.columns, Some(p));
    }
    forall px, py ensures Hits(TriptychRects(n, area, p), px, py) == if area.Has(px, py) then 1 else 0 {
      OneHit(area, px, py);
      OneHit(master, px, py);
      HitsAppend([master], Grid(n - 1, stack, p.columns, Some(p)), px, py);
    }
  }

  /** A window goes without a rectangle exactly when the stack column has no width. */
  lemma TriptychCount(n: nat, area: Rect, p: Params)
    requires n > 0 && area.h > 0
    ensures |TriptychRects(n, area, p)| == if n == 1 || Halves(area.w, p)[1] > 0 then n else 1
  {
    GridCount(n - 1, StackArea(area, p), p.columns, Some(p));
  }

  /** The least number of columns that makes a square grid large enough. */
  function CeilRoot(n: nat, from: nat): (c: nat)
    requires from == 0 || (from - 1) * (from - 1) < n
    ensures c * c >= n
    ensures c == 0 || (c - 1) * (c - 1) < n
    decreases n - from
  {
    if from * from >= n then from else CeilRoot(n, from + 1)
  }

  function EvenRects(n: nat, area: Rect): (rs: seq<Rect>) {
    var c := CeilRoot(n, 0);
    Grid(n, area, if c < 1 then 1 else c, None)
  }

  function EvenColumns(n: nat): (cols: nat)
    ensures cols > 0
  {
    var c := CeilRoot(n, 0);
    Columns(n, if c < 1 then 1 else c)
  }

  lemma EvenTiles(n: nat, area: Rect)
    requires n > 0 && area.w > 0 && area.h > 0
    ensures Tiles(EvenRects(n, area), area) && |EvenRects(n, area)| == n
  {
    var c := CeilRoot(n, 0);
    GridTiles(n, area, if c < 1 then 1 else c, None);
    GridCount(n, area, if c < 1 then 1 else c, None);
  }

  lemma {:induction false} RowHeight(x: int, y: int, h: int, widths: seq<int>, i: nat)
    requires i < |widths|
    ensures Row(x, y, h, widths)[i].h == h
  {
    if i < |widths| - 1 {
      RowHeight(x, y, h, widths[..|widths| - 1], i);
    }
  }

  predicate HeightIn(rs: seq<Rect>, heights: seq<int>) {
    forall i :: 0 <= i < |rs| ==> rs[i].h in heights
  }

  lemma RowHeights(x: int, y: int, h: int, widths: seq<int>)
    ensures HeightIn(Row(x, y, h, widths), [h])
  {
    forall i | 0 <= i < |widths| ensures Row(x, y, h, widths)[i].h in [h] {
      RowHeight(x, y, h, widths, i);
    }
  }

  lemma HeightsAppend(a: seq<Rect>, b: seq<Rect>, heights: seq<int>, h: int)
    requires HeightIn(a, heights) && HeightIn(b, [h])
    ensures HeightIn(a + b, heights + [h])
  {}

  lemma {:induction false} CellHeights(area: Rect, heights: seq<int>, widths: seq<seq<int>>)
    requires |widths| == |heights|
    ensures HeightIn(Stack(area, heights, widths), heights)
    decreases |heights|
  {
    if heights != [] {
      var k := |heights| - 1;
      var y := area.y + Sum(heights[..k]);
      CellHeights(area, heights[..k], widths[..k]);
      RowHeights(area.x, y, heights[k], widths[k]);
      HeightsAppend(Stack(area, heights[..k], widths[..k]), Row(area.x, y, heights[k], widths[k]), heights[..k], heights[k]);
      assert heights[..k] + [heights[k]] == heights;
    }
  }

  lemma SameSplit(total: int, n: nat, w: Weight, i: nat, j: nat)
    requires i < n && j < n
    ensures -1 <= Split(total, Same(n, w))[i] - Split(total, Same(n, w))[j] <= 1
  {
    EqualWeights(total, Same(n, w), i, j);
  }

  /** Any two cells of an even layout differ in height by at most one pixel. */
  lemma EvenHeights(n: nat, area: Rect, i: nat, j: nat)
    requires i < |EvenRects(n, area)| && j < |EvenRects(n, area)|
    ensures -1 <= EvenRects(n, area)[i].h - EvenRects(n, area)[j].h <= 1
  {
    var c := CeilRoot(n, 0);
    var cols := Columns(n, if c < 1 then 1 else c);
    var rows := RowCount(n, cols);
    RowsPositive(n, cols);
    var heights := Split(area.h, Weights(rows, None));
    CellHeights(area, heights, AllWidths(n, area.w, cols, None, rows));
    var rs := EvenRects(n, area);
    assert rs[i].h in heights && rs[j].h in heights;
    var a :| 0 <= a < |heights| && heights[a] == rs[i].h;
    var b :| 0 <= b < |heights| && heights[b] == rs[j].h;
    SameSplit(area.h, rows, Num(1.0 / rows as real), a, b);
  }

  lemma {:induction false} RowWidth(x: int, y: int, h: int, widths: seq<int>, i: nat)
    requires i < |widths|
    ensures Row(x, y, h, widths)[i].w == widths[i]
  {
    if i < |widths| - 1 {
      RowWidth(x, y, h, widths[..|widths| - 1], i);
    }
  }

  /** Where the cells of a row stand among all cells, and how wide they are. */
  lemma {:induction false} StackCell(area: Rect, heights: seq<int>, widths: seq<seq<int>>, row: nat, i: nat)
    requires row < |heights| == |widths| && i < |widths[row]|
    ensures var before, all := |Stack(area, heights[..row], widths[..row])|, Stack(area, heights, widths);
            before + i < |all| && all[before + i].w == widths[row][i]
    decreases |heights|
  {
    var k := |heights| - 1;
    if row < k {
      StackCell(area, heights[..k], widths[..k], row, i);
      assert heights[..k][..row] == heights[..row] && widths[..k][..row] == widths[..row];
    } else {
      RowWidth(area.x, area.y + Sum(heights[..k]), heights[k], widths[k], i);
    }
  }

  lemma WidthsPrefix(n: nat, w: int, cols: nat, p: Option<Params>, k: nat, row: nat)
    requires row <= k
    ensures AllWidths(n, w, cols, p, k)[..row] == AllWidths(n, w, cols, p, row)
  {
    forall i | 0 <= i < row ensures AllWidths(n, w, cols, p, k)[i] == AllWidths(n, w, cols, p, row)[i] {
      WidthsAt(n, w, cols, p, k, i);
      WidthsAt(n, w, cols, p, row, i);
    }
  }

  /** How many cells come before a row. */
  function CellsBefore(cols: nat, row: nat): (k: nat) { row * cols }

  lemma RowsBefore(n: nat, area: Rect, cols: nat, heights: seq<int>, widths: seq<seq<int>>, row: nat)
    requires cols > 0 && row < |heights| <= RowCount(n, cols) && widths == AllWidths(n, area.w, cols, None, |heights|)
    ensures |Stack(area, heights[..row], widths[..row])| == CellsBefore(cols, row)
    ensures widths[row] == Widths(n, area.w, cols, None, row)
  {
    RowStarts(n, cols, row);
    StackCount(n, area, cols, None, heights[..row]);
    WidthsPrefix(n, area.w, cols, None, |heights|, row);
    WidthsAt(n, area.w, cols, None, |heights|, row);
  }

  lemma RowEven(n: nat, w: int, cols: nat, row: nat, i: nat, j: nat)
    requires i < InRow(n, cols, row) && j < InRow(n, cols, row)
    ensures -1 <= Widths(n, w, cols, None, row)[i] - Widths(n, w, cols, None, row)[j] <= 1
  {
    var m := InRow(n, cols, row);
    SameSplit(w, m, Num(1.0 / m as real), i, j);
  }

  predicate EvenRow(ws: seq<int>) {
    forall i, j :: 0 <= i < |ws| && 0 <= j < |ws| ==> -1 <= ws[i] - ws[j] <= 1
  }

  lemma RowsEven(n: nat, w: int, cols: nat, row: nat)
    ensures EvenRow(Widths(n, w, cols, None, row))
  {
    forall i, j | 0 <= i < InRow(n, cols, row) && 0 <= j < InRow(n, cols, row)
      ensures -1 <= Widths(n, w, cols, None, row)[i] - Widths(n, w, cols, None, row)[j] <= 1
    {
      RowEven(n, w, cols, row, i, j);
    }
  }

  lemma EvenCells(area: Rect, heights: seq<int>, widths: seq<seq<int>>, row: nat, i: nat, j: nat, k: nat)
    requires row < |heights| == |widths| && i < |widths[row]| && j < |widths[row]| && EvenRow(widths[row])
    requires k == |Stack(area, heights[..row], widths[..row])|
    ensures var rs := Stack(area, heights, widths);
            k + i < |rs| && k + j < |rs| && -1 <= rs[k + i].w - rs[k + j].w <= 1
  {
    StackCell(area, heights, widths, row, i);
    StackCell(area, heights, widths, row, j);
  }

  lemma EvenStack(n: nat, area: Rect) returns (heights: seq<int>, widths: seq<seq<int>>)
    requires n > 0 && area.w > 0 && area.h > 0
    ensures |heights| == RowCount(n, EvenColumns(n)) && widths == AllWidths(n, area.w, EvenColumns(n), None, |heights|)
    ensures EvenRects(n, area) == Stack(area, heights, widths)
  {
    var rows := RowCount(n, EvenColumns(n));
    RowsPositive(n, EvenColumns(n));
    heights, widths := Split(area.h, Weights(rows, None)), AllWidths(n, area.w, EvenColumns(n), None, rows);
  }

  /** Any two cells of one row of an even layout differ in width by at most one pixel. */
  lemma EvenWidths(n: nat, area: Rect, row: nat, i: nat, j: nat)
    requires n > 0 && area.w > 0 && area.h > 0
    requires var cols := EvenColumns(n); row < RowCount(n, cols) && i < InRow(n, cols, row) && j < InRow(n, cols, row)
    ensures var k, rs := CellsBefore(EvenColumns(n), row), EvenRects(n, area);
            k + i < |rs| && k + j < |rs| && -1 <= rs[k + i].w - rs[k + j].w <= 1
  {
    var cols := EvenColumns(n);
    var heights, widths := EvenStack(n, area);
    RowsBefore(n, area, cols, heights, widths, row);
    RowsEven(n, area.w, cols, row);
    EvenCells(area, heights, widths, row, i, j, CellsBefore(cols, row));
  }

  // ---- when the stack has width ------------------------------------------------------------------------------

  /** The part of the width the stack asks for; NaN ratios ask for half. */
  function StackRatio(p: Params): (r: real) { if p.master.NaN? then 0.5 else 1.0 - p.master.value }

  function Portion(w: int, r: real): (s: real) { w as real * r }

  lemma TotalOfTwo(xs: seq<real>)
    requires |xs| == 2
    ensures Total(xs) == xs[0] + xs[1]
  {
    assert Total(xs[..1]) == Total(xs[..1][..0]) + xs[0];
  }

  lemma ShareOfOne(total: int, c: real)
    ensures Share(total, c, 1.0) == Portion(total, c)
  {}

  lemma ShareOfTwo(total: int)
    ensures Share(total, 1.0, 2.0) == Portion(total, 0.5)
  {}

  lemma WholeFloor(w: nat, s: real)
    requires w > 0 && 0.0 < s < 1.0
    ensures FloorOf(w as real - s) == w - 1 && RemainderOf(w as real - s) == 1.0 - s
    ensures FloorOf(s) == 0 && RemainderOf(s) == s
  {}

  /** Of two parts the second is empty exactly when its share does not pass one half. */
  lemma SecondPart(w: int, shares: seq<real>, parts: seq<int>)
    requires w > 0 && |shares| == 2 && shares[0] >= 0.0 && shares[1] > 0.0
    requires shares[0] + shares[1] == w as real && LargestRemainder(w, shares, parts)
    ensures parts[1] > 0 <==> shares[1] > 0.5
  {
    SumOfTwo(parts);
    if shares[1] < 1.0 {
      WholeFloor(w, shares[1]);
      assert shares[0] == w as real - shares[1];
      assert Remainders(shares)[0] == 1.0 - shares[1] && Remainders(shares)[1] == shares[1];
      assert Floors(shares)[0] == w - 1 && Floors(shares)[1] == 0;
      assert parts[1] > 0 ==> Before(Remainders(shares), 1, 0);
    } else {
      assert parts[1] >= Floors(shares)[1] >= 1;
    }
  }

  lemma Product(w: int, r: real)
    requires w > 0 && r >= 0.15
    ensures Portion(w, r) > 0.0
    ensures w >= 4 ==> Portion(w, r) > 0.5
  {
    assert w as real >= 1.0;
    assert w as real * r >= w as real * 0.15;
  }

  /** The exact share of the stack column passes half a pixel. */
  predicate StackFits(w: int, p: Params) { Portion(w, StackRatio(p)) > 0.5 }

  lemma HalfShares(w: int, p: Params)
    requires p == p.Sanitised()
    ensures SharesOf(w, [p.master, Rest(p.master)])[1] == Portion(w, StackRatio(p))
  {
    var ws := [p.master, Rest(p.master)];
    TotalOfTwo(Clips(ws));
    TotalOfTwo(Effective(ws));
    EffectivePositive(ws);
    if p.master.NaN? {
      ShareOfTwo(w);
    } else {
      ShareOfOne(w, 1.0 - p.master.value);
    }
  }

  lemma StackShare(w: int, p: Params, shares: seq<real>, parts: seq<int>)
    requires w > 0 && p == p.Sanitised() && |shares| == 2 && LargestRemainder(w, shares, parts)
    requires shares[0] >= 0.0 && shares[0] + shares[1] == w as real
    requires shares[1] == Portion(w, StackRatio(p))
    ensures parts[1] > 0 <==> StackFits(w, p)
    ensures w >= 4 ==> StackFits(w, p)
  {
    Product(w, StackRatio(p));
    SecondPart(w, shares, parts);
  }

  /** The stack column has width exactly when its exact share passes half a pixel; four pixels of
      area always suffice. */
  lemma StackWidth(w: int, p: Params)
    requires w > 0 && p == p.Sanitised()
    ensures Halves(w, p)[1] > 0 <==> StackFits(w, p)
    ensures w >= 4 ==> StackFits(w, p)
  {
    var ws := [p.master, Rest(p.master)];
    var shares := SharesOf(w, ws);
    SplitExact(w, ws);
    SharesExact(w, ws);
    TotalOfTwo(shares);
    HalfShares(w, p);
    StackShare(w, p, shares, Split(w, ws));
  }

  // ---- projecting an orbit -----------------------------------------------------------------------------------

  function RectsFor(layout: Layout, n: nat, tiles: Rect, p: Params): (rs: seq<Rect>)
    requires n > 0
  {
    match layout
    case Triptych => TriptychRects(n, tiles, p.Sanitised())
    case Mono => Same(n, tiles)
    case Even => EvenRects(n, tiles)
  }

  /** Pairs windows with rectangles until either runs out. */
  function Place(o: Orbit, top: Option<WinId>, wins: seq<WinId>, rects: seq<Rect>): (ps: seq<Placement>)
    ensures |ps| == if |wins| < |rects| then |wins| else |rects|
    ensures forall i :: 0 <= i < |ps| ==>
      ps[i] == Placement(wins[i], rects[i], o.Focused() == Some(wins[i]), o.layout.Mono? && top != Some(wins[i]))
  {
    if wins == [] || rects == [] then []
    else if |wins| < |rects| then Place(o, top, wins, rects[..|wins|])
    else
      var k := |rects| - 1;
      var w := wins[k];
      Place(o, top, wins, rects[..k]) +
      [Placement(w, rects[k], o.Focused() == Some(w), o.layout.Mono? && top != Some(w))]
  }

  predicate ShowsFullscreen(o: Orbit) { o.fullscreen.Some? && o.fullscreen.value in o.Visible() }

  function TopOf(o: Orbit): (w: Option<WinId>) {
    if !o.layout.Mono? then None
    else if o.Focused().Some? then o.Focused()
    else if o.Visible() == [] then None
    else Some(o.Visible()[0])
  }

  function Project(o: Orbit, area: Workarea, p: Params): (ps: seq<Placement>) {
    var visible := o.Visible();
    if ShowsFullscreen(o) then
      [Placement(o.fullscreen.value, area.output, o.Focused() == o.fullscreen, false)]
    else if visible == [] || area.tiles.w <= 0 || area.tiles.h <= 0 then []
    else Place(o, TopOf(o), visible, RectsFor(o.layout, |visible|, area.tiles, p))
  }

  function RectsOf(ps: seq<Placement>): (rs: seq<Rect>)
    ensures |rs| == |ps| && forall i :: 0 <= i < |ps| ==> rs[i] == ps[i].rect
  {
    if ps == [] then [] else RectsOf(ps[..|ps| - 1]) + [ps[|ps| - 1].rect]
  }

  function WinsOf(ps: seq<Placement>): (ws: seq<WinId>)
    ensures |ws| == |ps| && forall i :: 0 <= i < |ps| ==> ws[i] == ps[i].win
  {
    if ps == [] then [] else WinsOf(ps[..|ps| - 1]) + [ps[|ps| - 1].win]
  }

  /** There is something to lay out and somewhere to put it. */
  predicate LaidOut(o: Orbit, area: Workarea) {
    !ShowsFullscreen(o) && o.Visible() != [] && area.tiles.w > 0 && area.tiles.h > 0
  }

  /** Some window of a triptych goes without a rectangle. */
  predicate Crowded(layout: Layout, n: nat, w: int, p: Params) { layout.Triptych? && n > 1 && !StackFits(w, p) }

  lemma RectCount(layout: Layout, n: nat, tiles: Rect, p: Params)
    requires n > 0 && tiles.w > 0 && tiles.h > 0
    ensures |RectsFor(layout, n, tiles, p)| == if Crowded(layout, n, tiles.w, p.Sanitised()) then 1 else n
  {
    match layout
    case Triptych =>
      TriptychCount(n, tiles, p.Sanitised());
      SanitisedTwice(p);
      StackWidth(tiles.w, p.Sanitised());
    case Mono =>
    case Even => EvenTiles(n, tiles);
  }

  lemma SanitisedTwice(p: Params)
    ensures p.Sanitised().Sanitised() == p.Sanitised()
  {}

  /** The placed rectangles tile the area exactly, also when some window got none. */
  lemma ProjectTiles(o: Orbit, area: Workarea, p: Params)
    requires LaidOut(o, area) && !o.layout.Mono?
    ensures Tiles(RectsOf(Project(o, area, p)), area.tiles)
  {
    var n := |o.Visible()|;
    var rects := RectsFor(o.layout, n, area.tiles, p);
    RectCount(o.layout, n, area.tiles, p);
    PlacedWins(o, TopOf(o), o.Visible(), rects);
    if o.layout.Triptych? {
      TriptychTiles(n, area.tiles, p.Sanitised());
    } else {
      EvenTiles(n, area.tiles);
    }
  }

  /** Windows are placed in ledger order, and all of them unless a triptych's stack has no width. */
  lemma ProjectPlaces(o: Orbit, area: Workarea, p: Params)
    requires LaidOut(o, area)
    ensures WinsOf(Project(o, area, p)) <= o.Visible()
    ensures WinsOf(Project(o, area, p)) == o.Visible() <==> !Crowded(o.layout, |o.Visible()|, area.tiles.w, p.Sanitised())
    ensures area.tiles.w >= 4 ==> WinsOf(Project(o, area, p)) == o.Visible()
  {
    var rects := RectsFor(o.layout, |o.Visible()|, area.tiles, p);
    RectCount(o.layout, |o.Visible()|, area.tiles, p);
    SanitisedTwice(p);
    StackWidth(area.tiles.w, p.Sanitised());
    PlacedWins(o, TopOf(o), o.Visible(), rects);
  }

  lemma PlacedWins(o: Orbit, top: Option<WinId>, wins: seq<WinId>, rects: seq<Rect>)
    requires |rects| <= |wins|
    ensures WinsOf(Place(o, top, wins, rects)) == wins[..|rects|]
    ensures RectsOf(Place(o, top, wins, rects)) == rects
  {}

  /** It does happen: of two windows on a one-pixel column with a master ratio of 0.85 only one is placed. */
  lemma CrowdedHappens()
    ensures Narrow().Visible() == [1, 2] && WinsOf(Project(Narrow(), OnePixel(), MostlyMaster())) == [1]
  {
    NarrowVisible();
    assert MostlyMaster().Sanitised() == MostlyMaster();
    assert Portion(1, StackRatio(MostlyMaster())) <= 0.5;
    RectCount(Triptych, 2, OnePixel().tiles, MostlyMaster());
    PlacedWins(Narrow(), TopOf(Narrow()), [1, 2], RectsFor(Triptych, 2, OnePixel().tiles, MostlyMaster()));
  }

  function Narrow(): (o: Orbit) { Orbit([1, 2], Some(0), [], Triptych, None) }

  function OnePixel(): (area: Workarea) { Workarea(Rect(0, 0, 1, 1), Rect(0, 0, 1, 1)) }

  function MostlyMaster(): (p: Params) { Params(Num(0.85), 2, Num(0.5), Num(0.5)) }

  lemma NarrowVisible()
    ensures Narrow().Visible() == [1, 2]
  {
    assert [1, 2][..1] == [1] && [1][..0] == [];
    assert Without([1], []) == Without([], []) + [1];
    assert Without([1, 2], []) == Without([1], []) + [2];
  }

  /** A visible fullscreen window replaces the whole projection. */
  lemma FullscreenAlone(o: Orbit, area: Workarea, p: Params)
    requires ShowsFullscreen(o)
    ensures Tiles(RectsOf(Project(o, area, p)), area.output) && WinsOf(Project(o, area, p)) == [o.fullscreen.value]
  {
    var ps := Project(o, area, p);
    assert RectsOf(ps) == [area.output];
    forall px, py ensures Hits(RectsOf(ps), px, py) == if area.output.Has(px, py) then 1 else 0 {
      OneHit(area.output, px, py);
    }
  }

  // ---- the mono stack --------------------------------------------------------------------------------------------

  function Shown(ps: seq<Placement>): (k: nat) {
    if ps == [] then 0 else Shown(ps[..|ps| - 1]) + if ps[|ps| - 1].occluded then 0 else 1
  }

  lemma {:induction false} ShownTop(ps: seq<Placement>, top: WinId)
    requires NoDup(WinsOf(ps)) && forall i :: 0 <= i < |ps| ==> (ps[i].occluded <==> ps[i].win != top)
    ensures Shown(ps) == if top in WinsOf(ps) then 1 else 0
  {
    if ps != [] {
      var k := |ps| - 1;
      ShownTop(ps[..k], top);
      assert WinsOf(ps) == WinsOf(ps[..k]) + [ps[k].win];
    }
  }

  /** In a mono stack exactly one window shows, unless the focused one is stowed; then none does. */
  lemma MonoShowsOne(o: Orbit, area: Workarea, p: Params)
    requires LaidOut(o, area) && o.layout.Mono? && NoDup(o.windows)
    ensures Shown(Project(o, area, p)) == if o.Focused().Some? && o.Focused().value in o.stowed then 0 else 1
  {
    var ps := Project(o, area, p);
    WithoutKeeps(o.windows, o.stowed);
    assert WinsOf(ps) == o.Visible();
    ShownTop(ps, TopOf(o).value);
  }

  /** Two windows, a mono orbit, and the focused window stowed. */
  function StowedMono(): (es: seq<Event>) {
    [] + [Summons(1, 0)] + [Summons(2, 0)] + [Do(SetLayout(Mono))] + [Do(ToggleStow)]
  }

  lemma StowedMonoRun()
    ensures Run(NewLedger(), StowedMono()).Some?
    ensures FirstOrbit(Run(NewLedger(), StowedMono()).value, Orbit([1, 2], Some(1), [2], Mono, None))
  {
    RunNext([], Summons(1, 0));
    var l0 := NewLedger();
    SummonFirst(l0, EmptyOrbit(), 1);
    var l1 := Summon(l0, 1, 0);
    var o1 := Orbit([1], Some(0), [], Triptych, None);
    assert Receive(EmptyOrbit(), 1) == o1;
    RunNext([] + [Summons(1, 0)], Summons(2, 0));
    SummonFirst(l1, o1, 2);
    assert Receive(o1, 2) == Orbit([1, 2], Some(1), [], Triptych, None);
    RunNext([] + [Summons(1, 0)] + [Summons(2, 0)], Do(SetLayout(Mono)));
    RunNext([] + [Summons(1, 0)] + [Summons(2, 0)] + [Do(SetLayout(Mono))], Do(ToggleStow));
  }

  /** It does happen: after those events the one visible window is placed, and it is occluded. */
  lemma NothingShown(area: Workarea, p: Params)
    requires area.tiles.w > 0 && area.tiles.h > 0
    ensures Run(NewLedger(), StowedMono()).Some? && WellSized(Run(NewLedger(), StowedMono()).value.now)
    ensures var o := Run(NewLedger(), StowedMono()).value.now.orbits[0];
            LaidOut(o, area) && |Project(o, area, p)| == 1 && Shown(Project(o, area, p)) == 0
  {
    StowedMonoRun();
    var o := Orbit([1, 2], Some(1), [2], Mono, None);
    assert o.Visible() == [1] by {
      assert [1, 2][..1] == [1] && [1][..0] == [];
      assert Without([1], [2]) == Without([], [2]) + [1];
    }
    MonoShowsOne(o, area, p);
    ProjectPlaces(o, area, p);
  }

  /** Whatever was done to the ledger, no window is placed twice, and a mono orbit shows exactly one
      window unless its focused one is stowed. */
  lemma ReachableProjection(es: seq<Event>, orbit: OrbitId, area: Workarea, p: Params)
    ensures Run(NewLedger(), es).Some? && WellSized(Run(NewLedger(), es).value.now)
    ensures var o := Run(NewLedger(), es).value.now.orbits[orbit];
            LaidOut(o, area) ==>
              && NoDup(WinsOf(Project(o, area, p))) && o.Focused().Some?
              && (o.layout.Mono? ==> (Shown(Project(o, area, p)) == 1 <==> o.Focused().value !in o.stowed))
  {
    ReachableInv(es);
    var o := Run(NewLedger(), es).value.now.orbits[orbit];
    if LaidOut(o, area) {
      WithoutKeeps(o.windows, o.stowed);
      ProjectPlaces(o, area, p);
      if o.layout.Mono? {
        MonoShowsOne(o, area, p);
      }
    }
  }

  // ---- the loop ------------------------------------------------------------------------------------------------------

  /** `grid` as the source runs it; by `RowStarts` it never runs out of windows before the last row. */
  method GridLoop(n: nat, area: Rect, columns: nat, p: Option<Params>) returns (out: seq<Rect>)
    ensures out == Grid(n, area, columns, p)
  {
    if n == 0 || area.w <= 0 || area.h <= 0 {
      return [];
    }
    var cols := Columns(n, columns);
    RowsPositive(n, cols);
    var heights := PartitionLoop(area.h, Weights(RowCount(n, cols), RowRatio(p)));
    var bottom;
    out, bottom := RowsLoop(n, area, cols, p, heights);
  }

  /** One row of the grid; past the last window there is nothing to deal. */
  method DealNext(n: nat, area: Rect, cols: nat, p: Option<Params>, row: nat, y: int, h: int) returns (out: seq<Rect>)
    requires cols > 0
    ensures out == Row(area.x, y, h, Widths(n, area.w, cols, p, row))
  {
    out := [];
    var first := row * cols;
    if first < n {
      var inRow := if cols < n - first then cols else n - first;
      var widths := PartitionLoop(area.w, Weights(inRow, ColumnRatio(p)));
      out := DealRow(area.x, y, h, widths);
    }
  }

  method DealRow(left: int, y: int, h: int, widths: seq<int>) returns (out: seq<Rect>)
    ensures out == Row(left, y, h, widths)
  {
    out := [];
    var x := left;
    for i := 0 to |widths|
      invariant x == left + Sum(widths[..i])
      invariant out == Row(left, y, h, widths[..i])
    {
      assert widths[..i + 1][..i] == widths[..i];
      out := out + [Rect(x, y, widths[i], h)];
      x := x + widths[i];
    }
    assert widths[..|widths|] == widths;
  }

  /** The rows of the given heights are dealt, and the next one starts at `y`. */
  ghost predicate Dealt(area: Rect, heights: seq<int>, widths: seq<seq<int>>, y: int, out: seq<Rect>) {
    |widths| == |heights| && y == area.y + Sum(heights) && out == Stack(area, heights, widths)
  }

  lemma DealtNext(area: Rect, heights: seq<int>, widths: seq<seq<int>>, h: int, ws: seq<int>, y: int, out: seq<Rect>)
    requires Dealt(area, heights, widths, y, out)
    ensures Dealt(area, heights + [h], widths + [ws], y + h, out + Row(area.x, y, h, ws))
  {
    assert (heights + [h])[..|heights|] == heights && (widths + [ws])[..|widths|] == widths;
  }

  ghost predicate RowsDealt(n: nat, area: Rect, cols: nat, p: Option<Params>, done: seq<int>, y: int, out: seq<Rect>) {
    Dealt(area, done, AllWidths(n, area.w, cols, p, |done|), y, out)
  }

  lemma RowsDealtNext(n: nat, area: Rect, cols: nat, p: Option<Params>, done: seq<int>, h: int, y: int, out: seq<Rect>)
    requires RowsDealt(n, area, cols, p, done, y, out)
    ensures RowsDealt(n, area, cols, p, done + [h], y + h, out + Row(area.x, y, h, Widths(n, area.w, cols, p, |done|)))
  {
    DealtNext(area, done, AllWidths(n, area.w, cols, p, |done|), h, Widths(n, area.w, cols, p, |done|), y, out);
  }

  /** The next row down. */
  method DealDown(n: nat, area: Rect, cols: nat, p: Option<Params>, heights: seq<int>, row: nat, y: int, dealt: seq<Rect>)
    returns (out: seq<Rect>, below: int)
    requires cols > 0 && row < |heights| && RowsDealt(n, area, cols, p, heights[..row], y, dealt)
    ensures RowsDealt(n, area, cols, p, heights[..row + 1], below, out)
  {
    var more := DealNext(n, area, cols, p, row, y, heights[row]);
    RowsDealtNext(n, area, cols, p, heights[..row], heights[row], y, dealt);
    assert heights[..row] + [heights[row]] == heights[..row + 1];
    out, below := dealt + more, y + heights[row];
  }

  method RowsLoop(n: nat, area: Rect, cols: nat, p: Option<Params>, heights: seq<int>) returns (out: seq<Rect>, y: int)
    requires cols > 0
    ensures RowsDealt(n, area, cols, p, heights, y, out)
  {
    out, y := [], area.y;
    for row := 0 to |heights|
      invariant RowsDealt(n, area, cols, p, heights[..row], y, out)
    {
      out, y := DealDown(n, area, cols, p, heights, row, y, out);
    }
    assert heights[..|heights|] == heights;
  }
}
