/** What a grid layout does to its window: the panes cover it, apart from the borders between them. */
module PaneCover {
  import opened PaneGrid
  import opened PaneTiling

  function PanesOf(row: RowCell): (panes: seq<Pane>) {
    match row
    case One(pane) => [pane]
    case Columns(_, _, _, panes) => panes
  }

  function Flatten(rows: seq<RowCell>): (panes: seq<Pane>) {
    if rows == [] then [] else Flatten(rows[..|rows| - 1]) + PanesOf(rows[|rows| - 1])
  }

  /** The leaves of a layout, in the order of the text. */
  function Panes(layout: Layout): (panes: seq<Pane>) {
    match layout
    case OneRow(row) => PanesOf(row)
    case Stack(_, _, rows) => Flatten(rows)
  }

  predicate Inside(p: Pane, x: int, y: int) {
    p.x <= x < p.x + p.w && p.y <= y < p.y + p.h
  }

  /** The border cell is right of the pane, or below it. */
  predicate Borders(p: Pane, x: int, y: int) {
    (x == p.x + p.w && p.y <= y < p.y + p.h) || (y == p.y + p.h && p.x <= x <= p.x + p.w)
  }

  predicate Touches(p: Pane, x: int, y: int) {
    p.x <= x <= p.x + p.w && p.y <= y <= p.y + p.h
  }

  predicate Within(p: Pane, width: int, height: int) {
    p.x >= 0 && p.y >= 0 && p.w >= 1 && p.h >= 1 && p.x + p.w <= width && p.y + p.h <= height
  }

  predicate NoEmptyCell(panes: nat, width: int, height: int)
    requires panes >= 2
  {
    var g := Shape(panes, width, height);
    width >= 2 * g.columns - 1 && height >= 2 * g.rows - 1
  }

  // ---------------------------------------------------------------- leaves and positions

  /** The pane in row i and column j of the grid. */
  function PaneIn(panes: nat, width: int, height: int, g: Grid, i: nat, j: nat): (pane: Pane)
    requires InGrid(panes, g, i) && j < LengthOf(panes, g, i)
  {
    Pane(Extent(width, LengthOf(panes, g, i), j), Extent(height, g.rows, i),
         Offset(width, LengthOf(panes, g, i), j), Offset(height, g.rows, i), FirstOf(panes, g, i) + j)
  }

  /** The running sums of the lengths of rows. */
  predicate Sums(rows: seq<RowCell>, firsts: seq<nat>) {
    |firsts| == |rows| + 1 && firsts[0] == 0
    && forall i :: 0 <= i < |rows| ==> firsts[i + 1] == firsts[i] + |PanesOf(rows[i])|
  }

  lemma SumsBefore(rows: seq<RowCell>, firsts: seq<nat>)
    requires Sums(rows, firsts) && rows != []
    ensures var last := |rows| - 1;
            && Sums(rows[..last], firsts[..|rows|]) && firsts[..|rows|][last] == firsts[last]
            && firsts[|rows|] == firsts[last] + |PanesOf(rows[last])|
  {
  }

  lemma {:induction false} FlattenLength(rows: seq<RowCell>, firsts: seq<nat>)
    requires Sums(rows, firsts)
    ensures |Flatten(rows)| == firsts[|rows|]
  {
    if rows != [] {
      SumsBefore(rows, firsts);
      FlattenLength(rows[..|rows| - 1], firsts[..|rows|]);
    }
  }

  /** The row that holds a leaf. */
  lemma {:induction false} FlattenPosition(rows: seq<RowCell>, firsts: seq<nat>, m: nat) returns (i: nat, j: nat)
    requires Sums(rows, firsts) && m < firsts[|rows|]
    ensures |Flatten(rows)| == firsts[|rows|]
    ensures i < |rows| && j < |PanesOf(rows[i])| && m == firsts[i] + j
    ensures Flatten(rows)[m] == PanesOf(rows[i])[j]
    decreases |rows|
  {
    var last := |rows| - 1;
    SumsBefore(rows, firsts);
    FlattenLength(rows, firsts);
    FlattenLength(rows[..last], firsts[..|rows|]);
    if m < firsts[last] {
      i, j := FlattenPosition(rows[..last], firsts[..|rows|], m);
    } else {
      i, j := last, m - firsts[last];
    }
    FlattenSnoc(rows, m);
  }

  lemma {:induction false} FlattenPrefix(rows: seq<RowCell>, k: nat)
    requires k <= |rows|
    ensures Flatten(rows[..k]) <= Flatten(rows)
  {
    if k < |rows| {
      FlattenPrefix(rows[..|rows| - 1], k);
      assert rows[..|rows| - 1][..k] == rows[..k];
    } else {
      assert rows[..k] == rows;
    }
  }

  lemma FlattenOneMore(rows: seq<RowCell>, i: nat)
    requires i < |rows|
    ensures Flatten(rows[..i + 1]) == Flatten(rows[..i]) + PanesOf(rows[i])
  {
    assert rows[..i + 1][..i] == rows[..i];
  }

  lemma FlattenAt(rows: seq<RowCell>, firsts: seq<nat>, i: nat, j: nat)
    requires Sums(rows, firsts) && i < |rows| && j < |PanesOf(rows[i])|
    ensures firsts[i] + j < |Flatten(rows)| && Flatten(rows)[firsts[i] + j] == PanesOf(rows[i])[j]
  {
    FlattenLength(rows[..i], firsts[..i + 1]);
    FlattenPrefix(rows, i + 1);
    FlattenOneMore(rows, i);
  }

  lemma FlattenSnoc(rows: seq<RowCell>, m: nat)
    requires rows != []
    ensures var before, last := Flatten(rows[..|rows| - 1]), PanesOf(rows[|rows| - 1]);
            && |Flatten(rows)| == |before| + |last|
            && (m < |before| ==> Flatten(rows)[m] == before[m])
            && (|before| <= m < |before| + |last| ==> Flatten(rows)[m] == last[m - |before|])
  {
  }

  /** The panes of a row of the grid. */
  lemma RowHolds(panes: nat, width: int, height: int, g: Grid, i: nat)
    requires InGrid(panes, g, i)
    ensures var row := PanesOf(RowOf(panes, width, height, g, i));
            |row| == LengthOf(panes, g, i)
            && forall j :: 0 <= j < |row| ==> row[j] == PaneIn(panes, width, height, g, i, j)
  {
    var length := LengthOf(panes, g, i);
    var h, y, first := Extent(height, g.rows, i), Offset(height, g.rows, i), FirstOf(panes, g, i);
    assert PanesOf(RowAt(width, length, h, y, first)) == PanesOfRow(width, length, h, y, first);
  }

  lemma GridSums(panes: nat, width: int, height: int, g: Grid)
    requires InGrid(panes, g, 0)
    ensures Sums(RowsOf(panes, width, height, g), Firsts(panes, g))
  {
    RunningSums(panes, height, g);
    forall i | 0 <= i < g.rows ensures |PanesOf(RowOf(panes, width, height, g, i))| == LengthOf(panes, g, i) {
      RowHolds(panes, width, height, g, i);
    }
  }

  lemma PanesAreFlattened(panes: nat, width: int, height: int)
    requires panes >= 2
    ensures Panes(LayoutOf(panes, width, height)) == Flatten(RowsOf(panes, width, height, Shape(panes, width, height)))
  {
    var rows := RowsOf(panes, width, height, Shape(panes, width, height));
    if |rows| == 1 {
      assert rows[..0] == [];
      assert Flatten(rows) == Flatten([]) + PanesOf(rows[0]);
    }
  }

  /** Each leaf stands at one position of the grid, and is numbered by its place in the text. */
  lemma LeafPosition(panes: nat, width: int, height: int, m: nat) returns (i: nat, j: nat)
    requires panes >= 2 && m < |Panes(LayoutOf(panes, width, height))|
    ensures var g := Shape(panes, width, height);
            i < g.rows && j < LengthOf(panes, g, i) && m == FirstOf(panes, g, i) + j
            && Panes(LayoutOf(panes, width, height))[m] == PaneIn(panes, width, height, g, i, j)
  {
    var g := Shape(panes, width, height);
    var rows := RowsOf(panes, width, height, g);
    PanesAreFlattened(panes, width, height);
    GridSums(panes, width, height, g);
    FlattenLength(rows, Firsts(panes, g));
    i, j := FlattenPosition(rows, Firsts(panes, g), m);
    RowHolds(panes, width, height, g, i);
  }

  lemma GridLeaf(panes: nat, width: int, height: int, g: Grid, i: nat, j: nat)
    requires InGrid(panes, g, 0) && i < g.rows && j < LengthOf(panes, g, i)
    ensures var leaves, m := Flatten(RowsOf(panes, width, height, g)), FirstOf(panes, g, i) + j;
            m < |leaves| && leaves[m] == PaneIn(panes, width, height, g, i, j)
  {
    var rows, firsts := RowsOf(panes, width, height, g), Firsts(panes, g);
    assert firsts[i] == FirstOf(panes, g, i);
    RowHolds(panes, width, height, g, i);
    assert PanesOf(rows[i])[j] == PaneIn(panes, width, height, g, i, j);
    GridSums(panes, width, height, g);
    FlattenAt(rows, firsts, i, j);
  }

  lemma PositionLeaf(panes: nat, width: int, height: int, i: nat, j: nat)
    requires panes >= 2
    requires var g := Shape(panes, width, height); i < g.rows && j < LengthOf(panes, g, i)
    ensures var g := Shape(panes, width, height);
            var leaves, m := Panes(LayoutOf(panes, width, height)), FirstOf(panes, g, i) + j;
            m < |leaves| && leaves[m] == PaneIn(panes, width, height, g, i, j)
  {
    var g := Shape(panes, width, height);
    PanesAreFlattened(panes, width, height);
    GridLeaf(panes, width, height, g, i, j);
  }

  /** There are as many leaves as panes, numbered from 0 in the order of the text. */
  lemma LeavesAreNumbered(panes: nat, width: int, height: int)
    requires panes >= 2
    ensures var leaves := Panes(LayoutOf(panes, width, height));
            |leaves| == panes && forall m :: 0 <= m < panes ==> leaves[m].id == m
  {
    var g := Shape(panes, width, height);
    PanesAreFlattened(panes, width, height);
    GridSums(panes, width, height, g);
    FlattenLength(RowsOf(panes, width, height, g), Firsts(panes, g));
    forall m | 0 <= m < panes ensures Panes(LayoutOf(panes, width, height))[m].id == m {
      var i, j := LeafPosition(panes, width, height, m);
    }
  }

  // ---------------------------------------------------------------- one direction

  predicate NoEmptyPart(total: int, count: nat) {
    count > 0 && total >= 2 * count - 1
  }

  lemma {:induction false} PartsFollow(total: int, count: nat, i: nat, j: nat)
    requires NoEmptyPart(total, count) && i < j <= count
    ensures Offset(total, count, i) + Extent(total, count, i) + 1 <= Offset(total, count, j)
    decreases j - i
  {
    OffsetStep(total, count, i);
    if i + 1 < j {
      CellAtLeastIff(total, count, 1);
      PartsFollow(total, count, i + 1, j);
    }
  }

  lemma PartInside(total: int, count: nat, i: nat)
    requires NoEmptyPart(total, count) && i < count
    ensures Offset(total, count, i) >= 0 && Extent(total, count, i) >= 1
    ensures Offset(total, count, i) + Extent(total, count, i) <= total
  {
    CellAtLeastIff(total, count, 1);
    OffsetStep(total, count, i);
    OffsetEnd(total, count);
    if i > 0 {
      PartsFollow(total, count, 0, i);
    }
    PartsFollow(total, count, i, count);
  }

  /** The part that a cell is in, or is the border after. */
  lemma {:induction false} PartOf(total: int, count: nat, k: nat, p: int) returns (i: nat)
    requires NoEmptyPart(total, count) && k <= count && 0 <= p < Offset(total, count, k)
    ensures i < k && Offset(total, count, i) <= p <= Offset(total, count, i) + Extent(total, count, i)
  {
    if k > 0 {
      OffsetStep(total, count, k - 1);
      if p >= Offset(total, count, k - 1) {
        i := k - 1;
      } else {
        i := PartOf(total, count, k - 1, p);
      }
    }
  }

  lemma PartUnique(total: int, count: nat, i: nat, j: nat, p: int)
    requires NoEmptyPart(total, count) && i < count && j < count
    requires Offset(total, count, i) <= p <= Offset(total, count, i) + Extent(total, count, i)
    requires Offset(total, count, j) <= p <= Offset(total, count, j) + Extent(total, count, j)
    ensures i == j
  {
    if i < j {
      PartsFollow(total, count, i, j);
    } else if j < i {
      PartsFollow(total, count, j, i);
    }
  }

  // ---------------------------------------------------------------- the window

  lemma RowsNotEmpty(panes: nat, width: int, height: int, i: nat)
    requires panes >= 2 && NoEmptyCell(panes, width, height) && i < Shape(panes, width, height).rows
    ensures NoEmptyPart(width, LengthOf(panes, Shape(panes, width, height), i))
    ensures NoEmptyPart(height, Shape(panes, width, height).rows)
  {
  }

  lemma LeavesStayInside(panes: nat, width: int, height: int)
    requires panes >= 2 && NoEmptyCell(panes, width, height)
    ensures forall p <- Panes(LayoutOf(panes, width, height)) :: Within(p, width, height)
  {
    var g := Shape(panes, width, height);
    var leaves := Panes(LayoutOf(panes, width, height));
    PanesAreFlattened(panes, width, height);
    LeavesAreNumbered(panes, width, height);
    forall m | 0 <= m < panes ensures Within(leaves[m], width, height) {
      var i, j := LeafPosition(panes, width, height, m);
      RowsNotEmpty(panes, width, height, i);
      PartInside(width, LengthOf(panes, g, i), j);
      PartInside(height, g.rows, i);
    }
  }

  /** The one position whose pane contains or borders a cell of the window. */
  lemma CellPosition(panes: nat, width: int, height: int, x: int, y: int) returns (i: nat, j: nat)
    requires panes >= 2 && NoEmptyCell(panes, width, height) && 0 <= x < width && 0 <= y < height
    ensures var g := Shape(panes, width, height);
            i < g.rows && j < LengthOf(panes, g, i)
            && Touches(PaneIn(panes, width, height, g, i, j), x, y)
  {
    var g := Shape(panes, width, height);
    OffsetEnd(height, g.rows);
    RowsNotEmpty(panes, width, height, 0);
    i := PartOf(height, g.rows, g.rows, y);
    RowsNotEmpty(panes, width, height, i);
    var length := LengthOf(panes, g, i);
    OffsetEnd(width, length);
    j := PartOf(width, length, length, x);
  }

  /** Only one pane contains or borders the cell. */
  lemma OnlyOnePane(leaves: seq<Pane>, here: nat, width: int, height: int, x: int, y: int)
    requires here < |leaves| && Touches(leaves[here], x, y)
    requires forall k :: 0 <= k < |leaves| && Touches(leaves[k], x, y) ==> k == here
    requires forall p <- leaves :: Within(p, width, height)
    ensures (exists p <- leaves :: Inside(p, x, y)) <==> !exists p <- leaves :: Borders(p, x, y)
    ensures forall k, m :: 0 <= k < |leaves| && 0 <= m < |leaves| && Inside(leaves[k], x, y) && Inside(leaves[m], x, y)
                 ==> k == m
  {
    assert leaves[here] in leaves;
    forall p | p in leaves && Touches(p, x, y) ensures p == leaves[here] {
      var k :| 0 <= k < |leaves| && leaves[k] == p;
    }
  }

  lemma LeafAtCell(panes: nat, width: int, height: int, x: int, y: int) returns (here: nat)
    requires panes >= 2 && NoEmptyCell(panes, width, height) && 0 <= x < width && 0 <= y < height
    ensures var leaves := Panes(LayoutOf(panes, width, height)); here < |leaves| && Touches(leaves[here], x, y)
  {
    var g := Shape(panes, width, height);
    PanesAreFlattened(panes, width, height);
    var i, j := CellPosition(panes, width, height, x, y);
    PositionLeaf(panes, width, height, i, j);
    here := FirstOf(panes, g, i) + j;
  }

  lemma LeafUnique(panes: nat, width: int, height: int, x: int, y: int, k: nat, m: nat)
    requires panes >= 2 && NoEmptyCell(panes, width, height)
    requires var leaves := Panes(LayoutOf(panes, width, height));
             k < |leaves| && m < |leaves| && Touches(leaves[k], x, y) && Touches(leaves[m], x, y)
    ensures k == m
  {
    var g := Shape(panes, width, height);
    PanesAreFlattened(panes, width, height);
    var i, j := LeafPosition(panes, width, height, k);
    var i', j' := LeafPosition(panes, width, height, m);
    RowsNotEmpty(panes, width, height, i);
    PartUnique(height, g.rows, i, i', y);
    PartUnique(width, LengthOf(panes, g, i), j, j', x);
  }

  /** For two panes and more, if no cell of the grid is empty, each cell of the window lies in exactly
      one pane, or is part of a border and lies in none. */
  lemma PanesTileTheWindow(panes: nat, width: int, height: int, x: int, y: int)
    requires panes >= 2 && NoEmptyCell(panes, width, height) && 0 <= x < width && 0 <= y < height
    ensures var leaves := Panes(LayoutOf(panes, width, height));
            && ((exists p <- leaves :: Inside(p, x, y)) <==> !exists p <- leaves :: Borders(p, x, y))
            && forall k, m ::
                 0 <= k < |leaves| && 0 <= m < |leaves| && Inside(leaves[k], x, y) && Inside(leaves[m], x, y) ==> k == m
  {
    var leaves := Panes(LayoutOf(panes, width, height));
    var here := LeafAtCell(panes, width, height, x, y);
    forall k | 0 <= k < |leaves| && Touches(leaves[k], x, y) ensures k == here {
      LeafUnique(panes, width, height, x, y, k, here);
    }
    LeavesStayInside(panes, width, height);
    OnlyOnePane(leaves, here, width, height, x, y);
  }

  // ---------------------------------------------------------------- large enough

  /** A part is smallest in the row with most parts. */
  lemma PartAtLeast(total: int, most: nat, count: nat, index: nat, size: nat)
    requires index < count <= most && total >= most * (size + 1) - 1
    ensures Extent(total, count, index) >= size
  {
    assert count * (size + 1) <= most * (size + 1);
    CellAtLeastIff(total, count, size);
  }

  /** Every pane has these sizes exactly when the grid of such panes and its borders fit the window,
      also where the last row is short. */
  lemma PanesAtLeastIff(panes: nat, width: int, height: int, w: nat, h: nat)
    requires panes >= 2
    ensures var g := Shape(panes, width, height);
            (forall p <- Panes(LayoutOf(panes, width, height)) :: p.w >= w && p.h >= h) <==>
            width >= g.columns * (w + 1) - 1 && height >= g.rows * (h + 1) - 1
  {
    var g := Shape(panes, width, height);
    var leaves := Panes(LayoutOf(panes, width, height));
    if width >= g.columns * (w + 1) - 1 && height >= g.rows * (h + 1) - 1 {
      LargeWindow(panes, width, height, w, h);
    } else {
      SmallWindow(panes, width, height, w, h);
    }
  }

  lemma LargeWindow(panes: nat, width: int, height: int, w: nat, h: nat)
    requires panes >= 2
    requires var g := Shape(panes, width, height);
             width >= g.columns * (w + 1) - 1 && height >= g.rows * (h + 1) - 1
    ensures forall p <- Panes(LayoutOf(panes, width, height)) :: p.w >= w && p.h >= h
  {
    var g := Shape(panes, width, height);
    var leaves := Panes(LayoutOf(panes, width, height));
    PanesAreFlattened(panes, width, height);
    forall m | 0 <= m < |leaves| ensures leaves[m].w >= w && leaves[m].h >= h {
      var i, j := LeafPosition(panes, width, height, m);
      PartAtLeast(width, g.columns, LengthOf(panes, g, i), j, w);
      PartAtLeast(height, g.rows, g.rows, i, h);
    }
  }

  /** The last pane of a full row is no wider than a cell, and the last row no higher. */
  lemma LastPart(total: int, count: nat, size: int)
    requires count > 0 && total < count * (size + 1) - 1
    ensures Extent(total, count, count - 1) < size
  {
    CellAtLeastIff(total, count, size);
  }

  lemma SmallWindow(panes: nat, width: int, height: int, w: nat, h: nat)
    requires panes >= 2
    requires var g := Shape(panes, width, height);
             width < g.columns * (w + 1) - 1 || height < g.rows * (h + 1) - 1
    ensures exists p <- Panes(LayoutOf(panes, width, height)) :: p.w < w || p.h < h
  {
    var g := Shape(panes, width, height);
    FirstRowIsFull(panes, g);
    var p;
    if width < g.columns * (w + 1) - 1 {
      LastPart(width, g.columns, w);
      p := LeafIn(panes, width, height, 0, g.columns - 1);
    } else {
      LastPart(height, g.rows, h);
      p := LeafIn(panes, width, height, g.rows - 1, 0);
    }
    assert p.w < w || p.h < h;
  }

  lemma LeafIn(panes: nat, width: int, height: int, i: nat, j: nat) returns (p: Pane)
    requires panes >= 2 && i < Shape(panes, width, height).rows && j < LengthOf(panes, Shape(panes, width, height), i)
    ensures p == PaneIn(panes, width, height, Shape(panes, width, height), i, j)
    ensures p in Panes(LayoutOf(panes, width, height))
  {
    var g := Shape(panes, width, height);
    PanesAreFlattened(panes, width, height);
    PositionLeaf(panes, width, height, i, j);
    p := PaneIn(panes, width, height, g, i, j);
  }

  lemma FirstRowIsFull(panes: nat, g: Grid)
    requires InGrid(panes, g, 0)
    ensures LengthOf(panes, g, 0) == g.columns
  {
  }

  /** The window has no empty cell exactly when every pane has a column and a row. */
  lemma NoEmptyCellIff(panes: nat, width: int, height: int)
    requires panes >= 2
    ensures NoEmptyCell(panes, width, height) <==>
            forall p <- Panes(LayoutOf(panes, width, height)) :: p.w >= 1 && p.h >= 1
  {
    PanesAtLeastIff(panes, width, height, 1, 1);
  }

  /** The check before a pane is added is exact for the layout that is then sent: it passes if and only
      if every pane of that layout has at least the minimum size. */
  lemma CanFitIffPanesLargeEnough(panes: nat, width: int, height: int)
    requires panes >= 2 && width > 0 && height > 0
    ensures LayoutCanFit(panes, width, height) <==>
            forall p <- Panes(LayoutOf(panes, width, height)) :: p.w >= PANE_MIN_WIDTH && p.h >= PANE_MIN_HEIGHT
  {
    CanFitIff(panes, width, height);
    PanesAtLeastIff(panes, width, height, PANE_MIN_WIDTH, PANE_MIN_HEIGHT);
  }

  // ---------------------------------------------------------------- sums

  function Widths(panes: seq<Pane>): (sum: int) {
    if panes == [] then 0 else Widths(panes[..|panes| - 1]) + panes[|panes| - 1].w
  }

  function HeightOf(row: RowCell): (h: int) {
    match row
    case One(pane) => pane.h
    case Columns(_, h, _, _) => h
  }

  function Heights(rows: seq<RowCell>): (sum: int) {
    if rows == [] then 0 else Heights(rows[..|rows| - 1]) + HeightOf(rows[|rows| - 1])
  }

  /** The panes of a row have its height and, with the borders between them, its width. */
  predicate RowAddsUp(row: RowCell, width: int) {
    match row
    case One(pane) => pane.w == width && pane.x == 0
    case Columns(w, h, y, panes) =>
      w == width && Widths(panes) + |panes| - 1 == width && forall p <- panes :: p.h == h && p.y == y
  }

  predicate AddsUp(layout: Layout, width: int, height: int) {
    match layout
    case OneRow(row) => HeightOf(row) == height && RowAddsUp(row, width)
    case Stack(w, h, rows) =>
      w == width && h == height && Heights(rows) + |rows| - 1 == height && forall row <- rows :: RowAddsUp(row, width)
  }

  lemma {:induction false} WidthsAreOffsets(width: int, length: nat, h: int, y: int, first: nat, k: nat)
    requires k <= length && length > 0
    ensures Widths(PanesOfRow(width, length, h, y, first)[..k]) + k == Offset(width, length, k)
  {
    var row := PanesOfRow(width, length, h, y, first);
    if k == 0 {
      OffsetStep(width, length, 0);
    } else {
      assert row[..k][..k - 1] == row[..k - 1];
      WidthsAreOffsets(width, length, h, y, first, k - 1);
      OffsetStep(width, length, k - 1);
    }
  }

  lemma RowsAddUp(width: int, length: nat, h: int, y: int, first: nat)
    requires length > 0
    ensures RowAddsUp(RowAt(width, length, h, y, first), width)
  {
    var row := PanesOfRow(width, length, h, y, first);
    WidthsAreOffsets(width, length, h, y, first, length);
    assert row[..length] == row;
    OffsetEnd(width, length);
    OffsetStep(width, length, 0);
  }

  lemma {:induction false} HeightsAreOffsets(panes: nat, width: int, height: int, g: Grid, k: nat)
    requires InGrid(panes, g, 0) && k <= g.rows
    ensures Heights(RowsOf(panes, width, height, g)[..k]) + k == Offset(height, g.rows, k)
  {
    var rows := RowsOf(panes, width, height, g);
    if k == 0 {
      OffsetStep(height, g.rows, 0);
    } else {
      assert rows[..k][..k - 1] == rows[..k - 1];
      HeightsAreOffsets(panes, width, height, g, k - 1);
      OffsetStep(height, g.rows, k - 1);
    }
  }

  /** In every layout, for windows of any size, the panes and borders of each row add up to the width of
      the window, and the rows and borders to its height. */
  lemma LayoutAddsUp(panes: nat, width: int, height: int)
    requires panes >= 2
    ensures AddsUp(LayoutOf(panes, width, height), width, height)
  {
    var g := Shape(panes, width, height);
    var rows := RowsOf(panes, width, height, g);
    forall i | 0 <= i < g.rows ensures RowAddsUp(rows[i], width) {
      RowsAddUp(width, LengthOf(panes, g, i), Extent(height, g.rows, i), Offset(height, g.rows, i),
                FirstOf(panes, g, i));
    }
    HeightsAreOffsets(panes, width, height, g, g.rows);
    assert rows[..g.rows] == rows;
    OffsetEnd(height, g.rows);
    if g.rows == 1 {
      assert rows[..0] == [];
      assert Heights(rows) == Heights([]) + HeightOf(rows[0]);
    }
  }
}
