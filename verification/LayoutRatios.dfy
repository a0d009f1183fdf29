/** How far a layout keeps to its ratios, and where each of its cells lies. */
module LayoutRatios {
  import opened Optional
  import opened Partition
  import opened LedgerModel
  import opened Layouts

  // ---- parts and shares -------------------------------------------------------------------------

  /** Less than one pixel away. */
  predicate Near(part: int, x: real) { x - 1.0 < part as real < x + 1.0 }

  lemma PartOfShare(share: real, part: int)
    requires share >= 0.0 && (part == FloorOf(share) || part == FloorOf(share) + 1)
    requires RemainderOf(share) == 0.0 ==> part == FloorOf(share)
    ensures Near(part, share)
  {
    RemainderSmall(share);
  }

  lemma WholeShareKept(total: nat, ws: seq<Weight>, i: nat)
    requires total > 0 && i < |ws| && Remainders(SharesOf(total, ws))[i] == 0.0
    ensures Split(total, ws)[i] == Floors(SharesOf(total, ws))[i]
  {
    var shares := SharesOf(total, ws);
    SharesExact(total, ws);
    FloorsAndRemainders(shares);
    RemaindersSmall(shares);
    ZeroShareStaysZero(total, Floors(shares), Remainders(shares), i);
  }

  /** Every part is less than one pixel away from its exact share. */
  lemma PartNear(total: nat, ws: seq<Weight>, i: nat)
    requires total > 0 && i < |ws|
    ensures Near(Split(total, ws)[i], SharesOf(total, ws)[i])
  {
    var shares, parts := SharesOf(total, ws), Split(total, ws);
    SplitExact(total, ws);
    SharesExact(total, ws);
    assert parts[i] == Floors(shares)[i] || parts[i] == Floors(shares)[i] + 1;
    if RemainderOf(shares[i]) == 0.0 {
      WholeShareKept(total, ws, i);
    }
    PartOfShare(shares[i], parts[i]);
  }

  /** Less than `d` apart. */
  predicate Within(x: real, y: real, d: real) { -d < x - y < d }

  /** Part times sum is less than the sum away from weight times total. */
  predicate InProportion(part: int, c: real, total: int, sum: real) {
    Within(part as real * sum, c * total as real, sum)
  }

  lemma SmallMultiple(d: real, sum: real)
    requires -1.0 < d < 1.0 && sum > 0.0
    ensures -sum < d * sum < sum
  {}

  lemma NearTimes(x: real, share: real, sum: real)
    requires share - 1.0 < x < share + 1.0 && sum > 0.0
    ensures Within(x * sum, share * sum, sum)
  {
    SmallMultiple(x - share, sum);
    Spread(share, x - share, sum);
    assert share + (x - share) == x;
  }

  lemma NearScaled(part: int, share: real, c: real, total: int, sum: real)
    requires Near(part, share) && sum > 0.0 && Proportional(share, c, total as real, sum)
    ensures InProportion(part, c, total, sum)
  {
    NearTimes(part as real, share, sum);
    assert share * sum == c * total as real;
  }

  lemma ShareIs(total: nat, ws: seq<Weight>, i: nat)
    requires i < |ws| && Total(Clips(ws)) > 0.0
    ensures Proportional(SharesOf(total, ws)[i], Clipped(ws[i]), total as real, Total(Clips(ws)))
  {
    ShareScaled(total, Clipped(ws[i]), Total(Clips(ws)));
  }

  /** In terms of the weights alone, each part is in proportion to its weight to within a pixel. */
  lemma ProportionalPart(total: nat, ws: seq<Weight>, i: nat)
    requires total > 0 && i < |ws| && Total(Clips(ws)) > 0.0
    ensures InProportion(Split(total, ws)[i], Clipped(ws[i]), total, Total(Clips(ws)))
  {
    PartNear(total, ws, i);
    ShareIs(total, ws, i);
    NearScaled(Split(total, ws)[i], SharesOf(total, ws)[i], Clipped(ws[i]), total, Total(Clips(ws)));
  }

  /** Without a positive weight the total is split evenly. */
  lemma EvenWithoutWeights(total: int, ws: seq<Weight>, i: nat, j: nat)
    requires i < |ws| && j < |ws| && Total(Clips(ws)) <= 0.0
    ensures -1 <= Split(total, ws)[i] - Split(total, ws)[j] <= 1
  {
    NoneCounts(Clips(ws), i);
    NoneCounts(Clips(ws), j);
    SameEffective(ws, i, j);
    EqualWeights(total, ws, i, j);
  }

  lemma {:induction false} NoneCounts(xs: seq<real>, i: nat)
    requires NonNegative(xs) && Total(xs) <= 0.0 && i < |xs|
    ensures xs[i] == 0.0
  {
    var k := |xs| - 1;
    TotalNonNegative(xs[..k]);
    if i < k {
      NoneCounts(xs[..k], i);
    }
  }

  lemma {:induction false} TotalNonNegative(xs: seq<real>)
    requires NonNegative(xs)
    ensures Total(xs) >= 0.0
  {
    if xs != [] {
      TotalNonNegative(xs[..|xs| - 1]);
    }
  }

  /** Of two shares with the same whole part, the one with the larger remainder, and of equal ones the
      earlier, gets no less. */
  lemma LargerFirst(total: nat, ws: seq<Weight>, i: nat, j: nat)
    requires total > 0 && i < |ws| && j < |ws| && i != j
    requires var shares := SharesOf(total, ws);
             && FloorOf(shares[i]) == FloorOf(shares[j])
             && (shares[i] > shares[j] || (shares[i] == shares[j] && i < j))
    ensures Split(total, ws)[i] >= Split(total, ws)[j]
  {
    var shares, parts := SharesOf(total, ws), Split(total, ws);
    SplitExact(total, ws);
    FairOrder(Floors(shares), Remainders(shares), parts, i, j);
  }

  lemma FairOrder(floors: seq<int>, rs: seq<real>, parts: seq<int>, i: nat, j: nat)
    requires Fair(floors, rs, parts) && i < |parts| && j < |parts| && i != j && floors[i] == floors[j]
    requires rs[i] > rs[j] || (rs[i] == rs[j] && i < j)
    ensures parts[i] >= parts[j]
  {}

  // ---- two parts by a ratio ------------------------------------------------------------------------

  predicate InRange(w: Weight) { w.Num? && 0.15 <= w.value <= 0.85 }

  function Pair(w: Weight): (ws: seq<Weight>) { [w, Rest(w)] }

  lemma PairShares(total: int, w: Weight)
    requires InRange(w)
    ensures SharesOf(total, Pair(w))[0] == Portion(total, w.value)
    ensures SharesOf(total, Pair(w))[1] == Portion(total, 1.0 - w.value)
  {
    TotalOfTwo(Clips(Pair(w)));
    EffectivePositive(Pair(w));
    ShareOfOne(total, w.value);
    ShareOfOne(total, 1.0 - w.value);
  }

  /** Two parts keep to their ratio to within a pixel. */
  lemma PairNear(total: nat, w: Weight)
    requires total > 0 && InRange(w)
    ensures Near(Split(total, Pair(w))[0], Portion(total, w.value))
    ensures Near(Split(total, Pair(w))[1], Portion(total, 1.0 - w.value))
  {
    PairShares(total, w);
    PartNear(total, Pair(w), 0);
    PartNear(total, Pair(w), 1);
  }

  /** A whole number of pixels is met exactly. */
  lemma PairExact(total: nat, w: Weight, k: nat)
    requires total > 0 && InRange(w) && Portion(total, w.value) == k as real
    ensures Split(total, Pair(w)) == [k, total - k]
  {
    PairNear(total, w);
    SplitExact(total, Pair(w));
    SumOfTwo(Split(total, Pair(w)));
    NearWhole(Split(total, Pair(w))[0], k);
  }

  lemma NearWhole(part: int, k: int)
    requires Near(part, k as real)
    ensures part == k
  {
    assert (part - k) as real == part as real - k as real;
  }

  // ---- where the cells of a grid lie ----------------------------------------------------------------

  /** Each cell of a row, left to right. */
  lemma {:induction false} RowCell(x: int, y: int, h: int, widths: seq<int>, i: nat)
    requires i < |widths|
    ensures Row(x, y, h, widths)[i] == Rect(x + Sum(widths[..i]), y, widths[i], h)
  {
    var k := |widths| - 1;
    if i < k {
      RowCell(x, y, h, widths[..k], i);
      assert widths[..k][..i] == widths[..i];
    }
  }

  /** Each cell of a stack of rows, top to bottom. */
  lemma {:induction false} StackRect(area: Rect, heights: seq<int>, widths: seq<seq<int>>, row: nat, i: nat)
    requires row < |heights| == |widths| && i < |widths[row]|
    ensures var before, all := |Stack(area, heights[..row], widths[..row])|, Stack(area, heights, widths);
            && before + i < |all|
            && all[before + i] ==
                 Rect(area.x + Sum(widths[row][..i]), area.y + Sum(heights[..row]), widths[row][i], heights[row])
    decreases |heights|
  {
    var k := |heights| - 1;
    if row < k {
      StackRect(area, heights[..k], widths[..k], row, i);
      assert heights[..k][..row] == heights[..row] && widths[..k][..row] == widths[..row];
    } else {
      RowCell(area.x, area.y + Sum(heights[..k]), heights[k], widths[k], i);
    }
  }

  /** As many columns as asked for, but at least one and at most one for each cell. */
  lemma ColumnsAre(n: nat, columns: nat)
    requires n > 0
    ensures Columns(n, columns) == if columns == 0 then 1 else if columns < n then columns else n
  {}

  /** Two parts follow the ratio to within a pixel; any other number of parts, or parts without a ratio
      or with NaN for one, are even to within a pixel. */
  predicate Keeps(parts: seq<int>, total: int, ratio: Option<Weight>) {
    && NonNegativeParts(parts) && Sum(parts) == total
    && (|parts| == 2 && ratio.Some? && InRange(ratio.value) ==>
          Near(parts[0], Portion(total, ratio.value.value)) && Near(parts[1], Portion(total, 1.0 - ratio.value.value)))
    && (|parts| != 2 || ratio.None? || ratio.value.NaN? ==> EvenRow(parts))
  }

  lemma NaNSplit(total: int, i: nat, j: nat)
    requires i < 2 && j < 2
    ensures -1 <= Split(total, Pair(NaN))[i] - Split(total, Pair(NaN))[j] <= 1
  {
    EqualWeights(total, Pair(NaN), i, j);
  }

  lemma SameEven(total: int, n: nat, w: Weight)
    ensures EvenRow(Split(total, Same(n, w)))
  {
    forall i, j | 0 <= i < n && 0 <= j < n ensures -1 <= Split(total, Same(n, w))[i] - Split(total, Same(n, w))[j] <= 1 {
      SameSplit(total, n, w, i, j);
    }
  }

  lemma NaNEven(total: int)
    ensures EvenRow(Split(total, Pair(NaN)))
  {
    forall i, j | 0 <= i < 2 && 0 <= j < 2 ensures -1 <= Split(total, Pair(NaN))[i] - Split(total, Pair(NaN))[j] <= 1 {
      NaNSplit(total, i, j);
    }
  }

  lemma SplitKeeps(total: nat, n: nat, ratio: Option<Weight>)
    requires total > 0 && n > 0
    ensures Keeps(Split(total, Weights(n, ratio)), total, ratio)
  {
    SplitExact(total, Weights(n, ratio));
    if n == 2 && ratio.Some? {
      if ratio.value.NaN? {
        NaNEven(total);
      } else if InRange(ratio.value) {
        PairNear(total, ratio.value);
      }
    } else {
      SameEven(total, n, Num(1.0 / n as real));
    }
  }

  /** Row by row and cell by cell, each after the cells to its left and below the rows above. */
  predicate Laid(rs: seq<Rect>, area: Rect, cols: nat, heights: seq<int>, widths: seq<seq<int>>) {
    && |widths| == |heights|
    && forall row, i :: 0 <= row < |heights| && 0 <= i < |widths[row]| ==>
         && CellsBefore(cols, row) + i < |rs|
         && rs[CellsBefore(cols, row) + i] == CellRect(area, heights, widths[row], row, i)
  }

  function CellRect(area: Rect, heights: seq<int>, ws: seq<int>, row: nat, i: nat): (r: Rect)
    requires row < |heights| && i < |ws|
  {
    Rect(area.x + Sum(ws[..i]), area.y + Sum(heights[..row]), ws[i], heights[row])
  }

  lemma StackStart(n: nat, area: Rect, cols: nat, p: Option<Params>, heights: seq<int>, widths: seq<seq<int>>, row: nat)
    requires cols > 0 && row < |heights| <= RowCount(n, cols) && widths == AllWidths(n, area.w, cols, p, |heights|)
    ensures |Stack(area, heights[..row], widths[..row])| == CellsBefore(cols, row)
    ensures widths[row] == Widths(n, area.w, cols, p, row)
  {
    RowStarts(n, cols, row);
    StackCount(n, area, cols, p, heights[..row]);
    WidthsPrefix(n, area.w, cols, p, |heights|, row);
    WidthsAt(n, area.w, cols, p, |heights|, row);
  }

  lemma StackLaid(area: Rect, cols: nat, heights: seq<int>, widths: seq<seq<int>>)
    requires |widths| == |heights|
    requires forall row :: 0 <= row < |heights| ==> |Stack(area, heights[..row], widths[..row])| == CellsBefore(cols, row)
    ensures Laid(Stack(area, heights, widths), area, cols, heights, widths)
  {
    var rs := Stack(area, heights, widths);
    forall row, i | 0 <= row < |heights| && 0 <= i < |widths[row]|
      ensures CellsBefore(cols, row) + i < |rs| && rs[CellsBefore(cols, row) + i] == CellRect(area, heights, widths[row], row, i)
    {
      StackRect(area, heights, widths, row, i);
    }
  }

  lemma WidthsKeep(n: nat, w: int, cols: nat, p: Option<Params>, row: nat)
    requires w > 0 && InRow(n, cols, row) > 0
    ensures Keeps(Widths(n, w, cols, p, row), w, ColumnRatio(p))
  {
    SplitKeeps(w, InRow(n, cols, row), ColumnRatio(p));
  }

  lemma GridParts(n: nat, area: Rect, columns: nat, p: Option<Params>) returns (heights: seq<int>, widths: seq<seq<int>>)
    requires n > 0 && area.w > 0 && area.h > 0
    ensures |heights| == RowCount(n, Columns(n, columns)) && Keeps(heights, area.h, RowRatio(p))
    ensures widths == AllWidths(n, area.w, Columns(n, columns), p, |heights|)
    ensures Grid(n, area, columns, p) == Stack(area, heights, widths)
  {
    var cols := Columns(n, columns);
    RowsPositive(n, cols);
    var rows := RowCount(n, cols);
    SplitKeeps(area.h, rows, RowRatio(p));
    heights, widths := Split(area.h, Weights(rows, RowRatio(p))), AllWidths(n, area.w, cols, p, rows);
  }

  /** A grid has as many rows as it takes, each of as many cells as there are columns but the last; it
      is laid out row by row, rows keep to the row ratio and the cells of each row to the column ratio. */
  lemma GridKeepsRatios(n: nat, area: Rect, columns: nat, p: Option<Params>) returns (heights: seq<int>, widths: seq<seq<int>>)
    requires n > 0 && area.w > 0 && area.h > 0
    ensures var cols := Columns(n, columns);
            && |heights| == |widths| == RowCount(n, cols) && Laid(Grid(n, area, columns, p), area, cols, heights, widths)
            && Keeps(heights, area.h, if p.Some? then Some(p.value.primaryRow) else None)
            && forall row :: 0 <= row < |widths| ==>
                 && |widths[row]| == InRow(n, cols, row)
                 && Keeps(widths[row], area.w, if p.Some? then Some(p.value.stackPrimary) else None)
  {
    var cols := Columns(n, columns);
    heights, widths := GridParts(n, area, columns, p);
    forall row | 0 <= row < |heights|
      ensures |Stack(area, heights[..row], widths[..row])| == CellsBefore(cols, row)
      ensures |widths[row]| == InRow(n, cols, row) && Keeps(widths[row], area.w, ColumnRatio(p))
    {
      StackStart(n, area, cols, p, heights, widths, row);
      RowStarts(n, cols, row);
      WidthsKeep(n, area.w, cols, p, row);
    }
    StackLaid(area, cols, heights, widths);
  }

  lemma MasterKeeps(w: int, p: Params)
    requires w > 0 && InRange(p.master)
    ensures Near(Halves(w, p)[0], Portion(w, p.master.value)) && Halves(w, p)[1] == w - Halves(w, p)[0]
  {
    PairNear(w, p.master);
    HalvesExact(w, p);
  }

  /** The first rectangle is a column of the full height, and the rest is the grid beside it. */
  lemma TriptychIs(n: nat, area: Rect, p: Params)
    requires n > 1
    ensures var rs := TriptychRects(n, area, p);
            && rs[0] == Rect(area.x, area.y, Halves(area.w, p)[0], area.h)
            && rs[1..] == Grid(n - 1, StackArea(area, p), p.columns, Some(p))
  {}

  /** The rows and columns of a stack. */
  predicate StackKeeps(rs: seq<Rect>, stack: Rect, n: nat, p: Params, heights: seq<int>, widths: seq<seq<int>>) {
    var cols := Columns(n, p.columns);
    && |heights| == |widths| == RowCount(n, cols) && Laid(rs, stack, cols, heights, widths)
    && Keeps(heights, stack.h, Some(p.primaryRow))
    && forall row :: 0 <= row < |widths| ==> |widths[row]| == InRow(n, cols, row) && Keeps(widths[row], stack.w, Some(p.stackPrimary))
  }

  lemma StackGrid(n: nat, stack: Rect, p: Params) returns (heights: seq<int>, widths: seq<seq<int>>)
    requires n > 0 && stack.w > 0 && stack.h > 0
    ensures StackKeeps(Grid(n, stack, p.columns, Some(p)), stack, n, p, heights, widths)
  {
    heights, widths := GridKeepsRatios(n, stack, p.columns, Some(p));
  }

  /** The master takes its ratio of the width, to within a pixel, and all of the height; the stack takes
      the rest, and its grid keeps to the other two ratios. */
  lemma TriptychKeepsRatios(n: nat, area: Rect, p: Params) returns (heights: seq<int>, widths: seq<seq<int>>)
    requires n > 1 && area.w > 0 && area.h > 0 && InRange(p.master) && Halves(area.w, p)[1] > 0
    ensures var rs := TriptychRects(n, area, p);
            && rs[0] == Rect(area.x, area.y, rs[0].w, area.h) && Near(rs[0].w, Portion(area.w, p.master.value))
            && StackKeeps(rs[1..], Beside(area, rs[0].w), n - 1, p, heights, widths)
  {
    MasterKeeps(area.w, p);
    TriptychIs(n, area, p);
    assert StackArea(area, p) == Beside(area, Halves(area.w, p)[0]);
    heights, widths := StackGrid(n - 1, Beside(area, Halves(area.w, p)[0]), p);
  }

  /** What a column of width `w` on the left leaves of the area. */
  function Beside(area: Rect, w: int): (r: Rect) { Rect(area.x + w, area.y, area.w - w, area.h) }

  // ---- the reference desktop ----------------------------------------------------------------------------------

  /** The default parameters. */
  function Defaults(): (p: Params) { Params(Num(640.0 / 1920.0), 2, Num(700.0 / 1280.0), Num(580.0 / 1022.0)) }

  lemma KeepsExactly(parts: seq<int>, total: int, ratio: Weight, k: int)
    requires |parts| == 2 && Keeps(parts, total, Some(ratio)) && InRange(ratio) && Portion(total, ratio.value) == k as real
    ensures parts == [k, total - k]
  {
    SumOfTwo(parts);
    NearWhole(parts[0], k);
  }

  lemma CellFor(rs: seq<Rect>, area: Rect, heights: seq<int>, widths: seq<seq<int>>, row: nat, i: nat)
    requires |widths| == 2 && Laid(rs, area, 2, heights, widths)
    requires heights == [580, 442] && row < 2 && i < 2 && widths[row] == [700, 580]
    ensures 2 * row + i < |rs|
    ensures rs[2 * row + i] ==
            Rect(area.x + if i == 0 then 0 else 700, area.y + if row == 0 then 0 else 580, [700, 580][i], [580, 442][row])
  {
    assert CellsBefore(2, row) == 2 * row;
    var ws := widths[row];
    var cell := CellRect(area, heights, widths[row], row, i);
    assert rs[CellsBefore(2, row) + i] == cell;
    SumOfFirst(700, 580);
    SumOfFirst(580, 442);
    assert Sum(ws[..i]) == if i == 0 then 0 else 700;
    assert Sum(heights[..row]) == if row == 0 then 0 else 580;
  }

  lemma SumOfFirst(a: int, b: int)
    ensures Sum([a, b][..0]) == 0 && Sum([a, b][..1]) == a
  {
    assert [a, b][..1] == [a] && [a][..0] == [];
    assert Sum([a]) == Sum([a][..0]) + a;
  }

  lemma DefaultShares()
    ensures InRange(Defaults().master) && InRange(Defaults().stackPrimary) && InRange(Defaults().primaryRow)
    ensures Portion(1920, Defaults().master.value) == 640.0
    ensures Portion(1280, Defaults().stackPrimary.value) == 700.0
    ensures Portion(1022, Defaults().primaryRow.value) == 580.0
  {}

  /** Five windows on the reference desktop: a master of 640 pixels, columns of 700 and 580, rows of 580
      and 442. */
  lemma ReferenceDesktop(n: nat, area: Rect, p: Params)
    requires n == 5 && area.w == 1920 && area.h == 1022 && p == Defaults()
    ensures TriptychRects(n, area, p)[0] == Rect(area.x, area.y, 640, 1022)
    ensures TriptychRects(n, area, p)[1..] == ReferenceRects(area.x + 640, area.y)
  {
    ReferenceMaster(area.w, p);
    var stack := Rect(area.x + 640, area.y, 1280, 1022);
    var cells := ReferenceGrid(n - 1, stack, p);
    assert StackArea(area, p) == stack;
    MasterAndStack(n, area, p, 640, stack, cells);
  }

  lemma ReferenceGrid(n: nat, stack: Rect, p: Params) returns (cells: seq<Rect>)
    requires n == 4 && stack.w == 1280 && stack.h == 1022 && p == Defaults()
    ensures cells == Grid(n, stack, p.columns, Some(p)) && cells == ReferenceRects(stack.x, stack.y)
  {
    cells := Grid(n, stack, p.columns, Some(p));
    ReferenceStack(n, stack, p);
  }

  lemma MasterAndStack(n: nat, area: Rect, p: Params, w: int, stack: Rect, cells: seq<Rect>)
    requires n > 1 && Halves(area.w, p)[0] == w && StackArea(area, p) == stack
    requires cells == Grid(n - 1, stack, p.columns, Some(p))
    ensures TriptychRects(n, area, p)[0] == Rect(area.x, area.y, w, area.h)
    ensures TriptychRects(n, area, p)[1..] == cells
  {
    TriptychIs(n, area, p);
  }

  lemma ReferenceStack(n: nat, stack: Rect, p: Params)
    requires n == 4 && stack.w == 1280 && stack.h == 1022 && p == Defaults()
    ensures Grid(n, stack, p.columns, Some(p)) == ReferenceRects(stack.x, stack.y)
  {
    GridCount(n, stack, p.columns, Some(p));
    var heights, widths := StackGrid(n, stack, p);
    FourInTwo();
    ReferenceCells(Grid(n, stack, p.columns, Some(p)), stack, heights, widths);
  }

  /** Two rows of two. */
  function ReferenceRects(x: int, y: int): (rs: seq<Rect>) {
    [Rect(x, y, 700, 580), Rect(x + 700, y, 580, 580), Rect(x, y + 580, 700, 442), Rect(x + 700, y + 580, 580, 442)]
  }

  lemma FourInTwo()
    ensures Columns(4, 2) == 2 && RowCount(4, 2) == 2 && InRow(4, 2, 0) == 2 && InRow(4, 2, 1) == 2
  {}

  lemma ReferenceMaster(w: int, p: Params)
    requires w == 1920 && p == Defaults()
    ensures Halves(w, p)[0] == 640 && Halves(w, p)[1] == 1280
  {
    DefaultShares();
    PairExact(w, p.master, 640);
  }

  lemma ReferenceCells(rs: seq<Rect>, stack: Rect, heights: seq<int>, widths: seq<seq<int>>)
    requires stack.w == 1280 && stack.h == 1022 && |rs| == 4 && |heights| == |widths| == 2
    requires Laid(rs, stack, 2, heights, widths) && Keeps(heights, 1022, Some(Defaults().primaryRow))
    requires forall row :: 0 <= row < 2 ==> |widths[row]| == 2 && Keeps(widths[row], 1280, Some(Defaults().stackPrimary))
    ensures rs == ReferenceRects(stack.x, stack.y)
  {
    DefaultShares();
    KeepsExactly(heights, 1022, Defaults().primaryRow, 580);
    KeepsExactly(widths[0], 1280, Defaults().stackPrimary, 700);
    KeepsExactly(widths[1], 1280, Defaults().stackPrimary, 700);
    CellFor(rs, stack, heights, widths, 0, 0);
    CellFor(rs, stack, heights, widths, 0, 1);
    CellFor(rs, stack, heights, widths, 1, 0);
    CellFor(rs, stack, heights, widths, 1, 1);
  }

  // ---- parameters and placements ----------------------------------------------------------------------------------

  /** Ratios are brought to the nearest end of their range, NaN is left, and a column count goes to one
      to four; parameters already in range stay as they are. */
  lemma SanitisedOutcome(p: Params)
    ensures var q := p.Sanitised();
            && NearestInRange(p.master, q.master) && NearestInRange(p.stackPrimary, q.stackPrimary)
            && NearestInRange(p.primaryRow, q.primaryRow)
            && 1 <= q.columns <= 4 && (1 <= p.columns <= 4 ==> q.columns == p.columns)
            && (p.columns == 0 ==> q.columns == 1) && (p.columns > 4 ==> q.columns == 4)
  {}

  predicate NearestInRange(w: Weight, c: Weight) {
    && (w.NaN? <==> c.NaN?)
    && (w.Num? ==> InRange(c))
    && (w.Num? && w.value < 0.15 ==> c.value == 0.15) && (w.Num? && w.value > 0.85 ==> c.value == 0.85)
    && (InRange(w) ==> c == w)
  }

  /** Focus is flagged exactly on the focused window; only a mono stack hides windows, and it gives all
      of them the whole area. */
  lemma PlacementFlags(o: Orbit, area: Workarea, p: Params, i: nat)
    requires i < |Project(o, area, p)|
    ensures var q := Project(o, area, p)[i];
            && (q.focused <==> o.Focused() == Some(q.win))
            && (ShowsFullscreen(o) ==> q.rect == area.output && !q.occluded)
            && (!ShowsFullscreen(o) && o.layout.Mono? ==> q.rect == area.tiles)
            && (!o.layout.Mono? ==> !q.occluded)
            && (!ShowsFullscreen(o) && o.layout.Mono? && o.Focused().Some? ==> (q.occluded <==> q.win != o.Focused().value))
            && (!ShowsFullscreen(o) && o.layout.Mono? && o.Focused().None? ==> (q.occluded <==> q.win != o.Visible()[0]))
  {}

  /** Nothing is placed exactly when no window is visible, or none is fullscreen and there is no area. */
  lemma NothingPlaced(o: Orbit, area: Workarea, p: Params)
    ensures Project(o, area, p) == [] <==>
            o.Visible() == [] || (!ShowsFullscreen(o) && (area.tiles.w <= 0 || area.tiles.h <= 0))
  {
    if LaidOut(o, area) {
      RectCount(o.layout, |o.Visible()|, area.tiles, p);
    }
  }
}
