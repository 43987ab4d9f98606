/** How many columns and rows a window gets, and when its panes are large enough (tmux_gateway.py). */
module PaneGrid {

  const PANE_MIN_WIDTH := 120
  const PANE_MIN_HEIGHT := 20
  const POOL_WINDOW_WIDTH := 488
  const POOL_WINDOW_HEIGHT := 92
  const POOL_WINDOW_MAX_PANES := 12

  datatype Grid = Grid(columns: nat, rows: nat)

  /** Nearly square, and longer along the longer side of the window. */
  predicate Shaped(g: Grid, wide: bool) {
    g.columns >= 1 && g.rows >= 1
    && if wide then g.rows <= g.columns <= g.rows + 1 else g.columns <= g.rows <= g.columns + 1
  }

  /** One column or row more. */
  function Grow(g: Grid, wide: bool): (larger: Grid) {
    if wide == (g.columns == g.rows) then Grid(g.columns + 1, g.rows) else Grid(g.columns, g.rows + 1)
  }

  /** The number of cells before the last column or row was added. */
  function Previous(g: Grid, wide: bool): (cells: int) {
    if wide == (g.columns == g.rows) then g.columns * (g.rows - 1) else (g.columns - 1) * g.rows
  }

  /** The shape for so many panes: it covers them, and did not before its last column or row. */
  predicate IsGrid(panes: int, wide: bool, g: Grid) {
    if panes <= 1 then g == Grid(1, 1)
    else Shaped(g, wide) && Previous(g, wide) < panes <= g.columns * g.rows
  }

  lemma GrowKeepsShape(g: Grid, wide: bool)
    requires Shaped(g, wide)
    ensures Shaped(Grow(g, wide), wide) && Previous(Grow(g, wide), wide) == g.columns * g.rows
  {
  }

  lemma GrowCovers(g: Grid, wide: bool)
    requires Shaped(g, wide)
    ensures Grow(g, wide).columns * Grow(g, wide).rows > g.columns * g.rows
  {
    var larger := Grow(g, wide);
    if larger.columns > g.columns {
      assert larger.columns * larger.rows == g.columns * g.rows + g.rows;
    } else {
      assert larger.columns * larger.rows == g.columns * g.rows + g.columns;
    }
  }

  /** Of the shapes of one orientation, each is larger than all before it. */
  lemma LargerShape(wide: bool, g: Grid, h: Grid)
    requires Shaped(g, wide) && Shaped(h, wide)
    requires g.columns + g.rows < h.columns + h.rows
    ensures g.columns <= h.columns && g.rows <= h.rows && g.columns * g.rows <= Previous(h, wide)
  {
    var p := if wide == (h.columns == h.rows) then Grid(h.columns, h.rows - 1) else Grid(h.columns - 1, h.rows);
    assert p.columns * p.rows == Previous(h, wide);
    ProductMonotone(g, p);
  }

  lemma ProductMonotone(g: Grid, h: Grid)
    requires g.columns <= h.columns && g.rows <= h.rows
    ensures g.columns * g.rows <= h.columns * h.rows
  {
    assert g.columns * g.rows <= g.columns * h.rows <= h.columns * h.rows;
  }

  /** More panes never need fewer columns or rows; equally many need the same. */
  lemma GridGrows(fewer: int, more: int, wide: bool, g: Grid, h: Grid)
    requires fewer <= more && IsGrid(fewer, wide, g) && IsGrid(more, wide, h)
    ensures g.columns <= h.columns && g.rows <= h.rows
    ensures fewer == more ==> g == h
  {
    if h.columns + h.rows < g.columns + g.rows {
      LargerShape(wide, h, g);
    } else if fewer == more && g.columns + g.rows < h.columns + h.rows {
      LargerShape(wide, g, h);
    }
  }

  /** The shape, pane by pane: it grows along the longer side first, and only when it is full. */
  function GridFor(panes: int, wide: bool): (g: Grid)
    ensures IsGrid(panes, wide, g)
    decreases panes
  {
    if panes <= 1 then Grid(1, 1)
    else
      var g := GridFor(panes - 1, wide);
      if panes <= g.columns * g.rows then g
      else
        GrowKeepsShape(g, wide);
        GrowCovers(g, wide);
        Grow(g, wide)
  }

  method LayoutGrid(pane_count: int, width: int, height: int) returns (columns: nat, rows: nat)
    ensures Grid(columns, rows) == GridFor(pane_count, width >= height)
  {
    if pane_count <= 1 {
      return 1, 1;
    }
    ghost var expected := GridFor(pane_count, width >= height);
    ghost var wide := width >= height;
    columns, rows := 1, 1;
    while columns * rows < pane_count
      invariant Shaped(Grid(columns, rows), wide)
      invariant Previous(Grid(columns, rows), wide) < pane_count
      decreases pane_count - columns * rows
    {
      GrowKeepsShape(Grid(columns, rows), wide);
      GrowCovers(Grid(columns, rows), wide);
      if columns == rows {
        if width >= height {
          columns := columns + 1;
        } else {
          rows := rows + 1;
        }
      } else if columns < rows {
        columns := columns + 1;
      } else {
        rows := rows + 1;
      }
    }
    GridGrows(pane_count, pane_count, width >= height, expected, Grid(columns, rows));
  }

  /** Neither a column nor a row can be spared. */
  lemma BothNeeded(g: Grid, wide: bool)
    requires Shaped(g, wide)
    ensures g.columns * (g.rows - 1) <= Previous(g, wide) && (g.columns - 1) * g.rows <= Previous(g, wide)
  {
    var c, r := g.columns, g.rows;
    if c == r + 1 {
      assert c * (r - 1) == r * r - 1 && (c - 1) * r == r * r;
    } else if r == c + 1 {
      assert c * (r - 1) == c * c && (c - 1) * r == c * c - 1;
    } else {
      assert c * (r - 1) == (c - 1) * r;
    }
  }

  /** Filling rows of this many columns takes exactly the rows of the shape. */
  lemma RowsAreNeeded(panes: int, wide: bool)
    requires panes >= 2
    ensures var g := GridFor(panes, wide);
            g.columns <= panes && g.columns * (g.rows - 1) < panes <= g.columns * g.rows
  {
    var g := GridFor(panes, wide);
    BothNeeded(g, wide);
    AtLeastOneRow(g.columns, g.rows, panes);
  }

  lemma AtLeastOneRow(c: nat, r: nat, panes: int)
    requires c >= 1 && r >= 1 && c <= r + 1 && panes >= 2 && c * (r - 1) < panes && (c - 1) * r < panes
    ensures c <= panes
  {
    if r >= 2 {
      assert c * (r - 1) >= c;
    }
  }

  // ---------------------------------------------------------------- cells

  /** Equal parts of an extent with a border cell between neighbours; the first parts take the rest. */
  function Extent(total: int, count: nat, index: nat): (size: int)
    requires index < count
  {
    var usable := total - (count - 1);
    usable / count + if index < usable % count then 1 else 0
  }

  function SplitLayoutExtent(total: int, count: nat): (sizes: seq<int>)
    requires count > 0
    ensures |sizes| == count
    ensures forall index :: 0 <= index < count ==> sizes[index] == Extent(total, count, index)
  {
    seq(count, index requires 0 <= index < count => Extent(total, count, index))
  }

  /** The parts of one extent differ by at most one cell, and no later part is the larger one. */
  lemma PartsAreFair(total: int, count: nat, i: nat, j: nat)
    requires i < j < count
    ensures Extent(total, count, j) <= Extent(total, count, i) <= Extent(total, count, j) + 1
  {
  }

  function LayoutCellSize(g: Grid, width: int, height: int): (size: (int, int))
    requires g.columns > 0 && g.rows > 0
  {
    ((width - (g.columns - 1)) / g.columns, (height - (g.rows - 1)) / g.rows)
  }

  predicate LayoutCanFit(panes: int, width: int, height: int) {
    width > 0 && height > 0
    && var (cellWidth, cellHeight) := LayoutCellSize(GridFor(panes, width >= height), width, height);
       cellWidth >= PANE_MIN_WIDTH && cellHeight >= PANE_MIN_HEIGHT
  }

  /** A cell is at least this large exactly when so many of them and their borders fit. */
  lemma CellAtLeastIff(total: int, count: nat, size: int)
    requires count > 0
    ensures (total - (count - 1)) / count >= size <==> total >= count * (size + 1) - 1
  {
    QuotientAtLeastIff(total - (count - 1), count, size);
    assert count * (size + 1) == count * size + count;
  }

  lemma QuotientAtLeastIff(n: int, d: int, q: int)
    requires d > 0
    ensures n / d >= q <==> n >= d * q
  {
    if n / d >= q {
      assert d * (n / d) >= d * q;
    } else {
      assert d * (n / d + 1) <= d * q;
    }
  }

  lemma CanFitIff(panes: int, width: int, height: int)
    ensures var g := GridFor(panes, width >= height);
            LayoutCanFit(panes, width, height) <==>
              width >= g.columns * (PANE_MIN_WIDTH + 1) - 1 && height >= g.rows * (PANE_MIN_HEIGHT + 1) - 1
  {
    var g := GridFor(panes, width >= height);
    CellAtLeastIff(width, g.columns, PANE_MIN_WIDTH);
    CellAtLeastIff(height, g.rows, PANE_MIN_HEIGHT);
  }

  /** A window that fits some panes fits fewer, and so does a larger one of the same orientation. */
  lemma CanFitFewer(fewer: int, more: int, width: int, height: int, wider: int, higher: int)
    requires fewer <= more && LayoutCanFit(more, width, height)
    requires wider >= width && higher >= height && (width >= height <==> wider >= higher)
    ensures LayoutCanFit(fewer, wider, higher)
  {
    CanFitIff(more, width, height);
    CanFitIff(fewer, wider, higher);
    var g, h := GridFor(fewer, width >= height), GridFor(more, width >= height);
    GridGrows(fewer, more, width >= height, g, h);
  }

  lemma GridAtMost(panes: int, bound: int, wide: bool, g: Grid)
    requires panes <= bound && IsGrid(bound, wide, g)
    ensures GridFor(panes, wide).columns <= g.columns && GridFor(panes, wide).rows <= g.rows
  {
    GridGrows(panes, bound, wide, GridFor(panes, wide), g);
  }

  lemma GridAtLeast(panes: int, bound: int, wide: bool, g: Grid)
    requires bound <= panes && IsGrid(bound, wide, g)
    ensures g.columns <= GridFor(panes, wide).columns && g.rows <= GridFor(panes, wide).rows
  {
    GridGrows(bound, panes, wide, g, GridFor(panes, wide));
  }

  /** Every window at least as large as a pool window fits all panes a pool window may hold. */
  lemma PoolWindowsFit(panes: int, width: int, height: int)
    requires panes <= POOL_WINDOW_MAX_PANES && width >= POOL_WINDOW_WIDTH && height >= POOL_WINDOW_HEIGHT
    ensures LayoutCanFit(panes, width, height)
  {
    var wide := width >= height;
    GridAtMost(panes, 12, wide, if wide then Grid(4, 3) else Grid(3, 4));
    CanFitIff(panes, width, height);
  }

  /** A window of just the pool size has room for sixteen. */
  lemma PoolWindowCapacity(panes: int)
    ensures LayoutCanFit(panes, POOL_WINDOW_WIDTH, POOL_WINDOW_HEIGHT) <==> panes <= 16
  {
    CanFitIff(panes, POOL_WINDOW_WIDTH, POOL_WINDOW_HEIGHT);
    if panes <= 16 {
      GridAtMost(panes, 16, true, Grid(4, 4));
    } else {
      GridAtLeast(panes, 17, true, Grid(5, 4));
    }
  }
}
