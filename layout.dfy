/**
 * The arithmetic behind the main window's two arrangement commands.
 *
 * Cascade shifts the i-th tab's scroll viewer by 30 units right and 30 down
 * per step. Tile lays the n tabs out on a grid of rows = ceil(sqrt n) and
 * cols = ceil(n / rows) cells, filled row by row: tab i goes to row i / cols,
 * column i % cols, and every cell is W / cols wide and H / rows high, where
 * W and H are the window's actual size.
 */
module Layout {

  /** A WPF Thickness: the left, top, right and bottom margins of an element. */
  datatype Thickness = Thickness(left: real, top: real, right: real, bottom: real)

  // ---------------------------------------------------------------------------
  // Cascade

  /** The step between two cascaded tabs, along each axis. */
  const CASCADE_STEP: real := 30.0

  /** The margin CascadeWindows_Click gives the tab at position index. */
  function CascadeMargin(index: nat): Thickness {
    Thickness(CASCADE_STEP * index as real, CASCADE_STEP * index as real, 0.0, 0.0)
  }

  /** Later tabs sit strictly further right and further down, so no two coincide. */
  lemma CascadeStrictlyIncreasing(i: nat, j: nat)
    requires i < j
    ensures CascadeMargin(i).left + CASCADE_STEP <= CascadeMargin(j).left
    ensures CascadeMargin(i).top + CASCADE_STEP <= CascadeMargin(j).top
  {
  }

  /** Three tabs are cascaded to (0,0), (30,30) and (60,60). */
  lemma CascadeThreeTabs()
    ensures CascadeMargin(0) == Thickness(0.0, 0.0, 0.0, 0.0)
    ensures CascadeMargin(1) == Thickness(30.0, 30.0, 0.0, 0.0)
    ensures CascadeMargin(2) == Thickness(60.0, 60.0, 0.0, 0.0)
  {
  }

  // ---------------------------------------------------------------------------
  // Integer square root and division, rounded up

  /**
   * Math.Ceiling(Math.Sqrt(n)) on an exact integer n: the least r with
   * r * r >= n (CeilSqrtIsLeastRoot).
   */
  function CeilSqrt(n: nat): (r: nat)
    ensures n > 0 ==> r >= 1
  {
    CeilSqrtFrom(n, 0)
  }

  /** The search behind CeilSqrt: every candidate below r is already too small. */
  function CeilSqrtFrom(n: nat, r: nat): (q: nat)
    requires r == 0 || (r - 1) * (r - 1) < n
    ensures r <= q
    ensures n > 0 ==> q >= 1
    decreases n - r
  {
    if r * r >= n then r
    else
      assert r < n by {
        if r > 0 { assert r <= r * r; }
      }
      CeilSqrtFrom(n, r + 1)
  }

  lemma {:induction false} CeilSqrtFromIsLeastRoot(n: nat, r: nat)
    requires r == 0 || (r - 1) * (r - 1) < n
    ensures var q := CeilSqrtFrom(n, r);
      q * q >= n && (q == 0 || (q - 1) * (q - 1) < n)
    decreases n - r
  {
    if r * r < n {
      assert r < n by {
        if r > 0 { assert r <= r * r; }
      }
      CeilSqrtFromIsLeastRoot(n, r + 1);
    }
  }

  /** CeilSqrt(n) squared reaches n, and the number below it does not. */
  lemma CeilSqrtIsLeastRoot(n: nat)
    ensures var r := CeilSqrt(n);
      r * r >= n && (r == 0 || (r - 1) * (r - 1) < n)
  {
    CeilSqrtFromIsLeastRoot(n, 0);
  }

  /** No number below CeilSqrt(n) has a square that reaches n. */
  lemma CeilSqrtLeast(n: nat, k: nat)
    requires k * k >= n
    ensures CeilSqrt(n) <= k
  {
    var r := CeilSqrt(n);
    CeilSqrtIsLeastRoot(n);
    if k < r {
      MulMonotone(k, r - 1, k);
      MulMonotone(k, r - 1, r - 1);
      assert false;
    }
  }

  lemma MulMonotone(a: nat, b: nat, c: nat)
    requires a <= b
    ensures a * c <= b * c
  {
  }

  /** Math.Ceiling((double)n / d) on exact integers: the least q with q * d >= n (CeilDivIsLeast). */
  function CeilDiv(n: nat, d: nat): (q: nat)
    requires d > 0
    ensures n > 0 ==> q >= 1
  {
    if n % d == 0 then n / d else n / d + 1
  }

  /** CeilDiv(n, d) times d reaches n, and one less does not. */
  lemma CeilDivIsLeast(n: nat, d: nat)
    requires d > 0
    ensures CeilDiv(n, d) * d >= n && (CeilDiv(n, d) - 1) * d < n
  {
    assert n == (n / d) * d + n % d;
  }

  // ---------------------------------------------------------------------------
  // Tile grid

  /** The number of grid rows for n tabs. */
  function Rows(n: nat): (rows: nat)
    ensures n > 0 ==> rows >= 1
  {
    CeilSqrt(n)
  }

  /** The number of grid columns for n > 0 tabs. */
  function Cols(n: nat): (cols: nat)
    requires n > 0
    ensures cols >= 1
  {
    CeilDiv(n, Rows(n))
  }

  /** A grid cell, counted from the top-left corner. */
  datatype Cell = Cell(row: nat, col: nat)

  /** The cell of the tab at position index on a grid with cols columns. */
  function CellOf(index: nat, cols: nat): Cell
    requires cols > 0
  {
    Cell(index / cols, index % cols)
  }

  /** The grid has room for every tab: rows * cols >= n. */
  lemma GridCoversTabs(n: nat)
    requires n > 0
    ensures Rows(n) * Cols(n) >= n
  {
    CeilDivIsLeast(n, Rows(n));
  }

  /** Every tab 0 <= i < n lands inside the grid. */
  lemma CellInGrid(n: nat, i: nat)
    requires i < n
    ensures CellOf(i, Cols(n)).row < Rows(n)
    ensures CellOf(i, Cols(n)).col < Cols(n)
  {
    GridCoversTabs(n);
    RowInGrid(Rows(n), Cols(n), i);
  }

  /** A position below rows * cols falls in one of the rows. */
  lemma RowInGrid(rows: nat, cols: nat, i: nat)
    requires cols > 0 && i < rows * cols
    ensures i / cols < rows
  {
    var q := i / cols;
    if q >= rows {
      MulMonotone(rows, q, cols);
      assert false;
    }
  }

  /** Two positions share a cell exactly when they are the same position. */
  lemma CellsDistinct(cols: nat, i: nat, j: nat)
    requires cols > 0
    ensures CellOf(i, cols) == CellOf(j, cols) <==> i == j
  {
    assert i == (i / cols) * cols + i % cols;
    assert j == (j / cols) * cols + j % cols;
  }

  /** Every cell before the n-th in row order is taken, by position row * cols + col. */
  lemma CellTaken(cols: nat, row: nat, col: nat)
    requires col < cols
    ensures CellOf(row * cols + col, cols) == Cell(row, col)
  {
    DivModUnique(row * cols + col, cols, row, col);
  }

  /** Euclidean division by d > 0 has one quotient and one remainder. */
  lemma DivModUnique(i: nat, d: nat, q: nat, r: nat)
    requires d > 0 && r < d && i == q * d + r
    ensures i / d == q && i % d == r
  {
    var q', r' := i / d, i % d;
    assert i == q' * d + r';
    if q' < q {
      MulMonotone(q' + 1, q, d);
      assert false;
    } else if q < q' {
      MulMonotone(q + 1, q', d);
      assert false;
    }
  }

  /** Five tabs make a 3 x 2 grid, and the fifth tab opens the third row. */
  lemma FiveTabs()
    ensures Rows(5) == 3 && Cols(5) == 2
    ensures CellOf(4, 2) == Cell(2, 0)
  {
    assert CeilSqrtFrom(5, 3) == 3;
    assert CeilSqrtFrom(5, 2) == 3;
    assert CeilSqrtFrom(5, 1) == 3;
  }

  // ---------------------------------------------------------------------------
  // Tile placement

  /** Where TileWindows_Click puts a tab: its margin's left and top, and its size. */
  datatype Tile = Tile(left: real, top: real, width: real, height: real)

  /** Two tiles that do not overlap: one lies wholly left of, right of, above or below the other. */
  predicate Apart(a: Tile, b: Tile) {
    a.left + a.width <= b.left || b.left + b.width <= a.left ||
    a.top + a.height <= b.top || b.top + b.height <= a.top
  }

  /** The tile of a grid cell, for cells of the given size. */
  function CellTile(tileWidth: real, tileHeight: real, c: Cell): Tile {
    Tile(tileWidth * c.col as real, tileHeight * c.row as real, tileWidth, tileHeight)
  }

  /** The tile of position index among n tabs in a window of the given actual size. */
  function TileOf(index: nat, n: nat, width: real, height: real): Tile
    requires index < n
  {
    var rows, cols := Rows(n), Cols(n);
    var tileWidth, tileHeight := width / cols as real, height / rows as real;
    CellTile(tileWidth, tileHeight, CellOf(index, cols))
  }

  /** The tiles of the first k of n tabs, in tab order. */
  function TilesUpTo(k: nat, n: nat, width: real, height: real): (ts: seq<Tile>)
    requires k <= n
    ensures |ts| == k
  {
    if k == 0 then [] else TilesUpTo(k - 1, n, width, height) + [TileOf(k - 1, n, width, height)]
  }

  lemma {:induction false} TilesUpToAt(k: nat, n: nat, width: real, height: real, i: nat)
    requires i < k <= n
    ensures TilesUpTo(k, n, width, height)[i] == TileOf(i, n, width, height)
  {
    if i < k - 1 {
      TilesUpToAt(k - 1, n, width, height, i);
    }
  }

  /** Tile index of the list, written with the grid's row and column counts. */
  lemma TilesUpToCell(n: nat, width: real, height: real, rows: nat, cols: nat, index: nat)
    requires index < n && rows == Rows(n) && cols == Cols(n)
    ensures TilesUpTo(n, n, width, height)[index] ==
      CellTile(width / cols as real, height / rows as real, Cell(index / cols, index % cols))
  {
    TilesUpToAt(n, n, width, height, index);
  }

  lemma MulMonotoneReal(a: real, b: real, c: real)
    requires a <= b && c >= 0.0
    ensures a * c <= b * c
  {
  }

  /** In a window of non-negative size every tile lies inside the window. */
  lemma TileInsideWindow(index: nat, n: nat, width: real, height: real)
    requires index < n && width >= 0.0 && height >= 0.0
    ensures var t := TileOf(index, n, width, height);
      0.0 <= t.left && t.left + t.width <= width &&
      0.0 <= t.top && t.top + t.height <= height
  {
    CellInGrid(n, index);
    CellTileInside(width, height, Rows(n), Cols(n), CellOf(index, Cols(n)));
  }

  /** The tile of a cell of a rows x cols grid over a width x height area lies inside the area. */
  lemma CellTileInside(width: real, height: real, rows: nat, cols: nat, c: Cell)
    requires c.row < rows && c.col < cols && width >= 0.0 && height >= 0.0
    ensures var t := CellTile(width / cols as real, height / rows as real, c);
      0.0 <= t.left && t.left + t.width <= width &&
      0.0 <= t.top && t.top + t.height <= height
  {
    SpanInside(width, c.col, cols);
    SpanInside(height, c.row, rows);
  }

  /** Slot k of c equal slots of a length w >= 0 starts at or after 0 and ends at or before w. */
  lemma SpanInside(w: real, k: nat, c: nat)
    requires k < c && w >= 0.0
    ensures var t := w / c as real; 0.0 <= t * k as real && t * k as real + t <= w
  {
    var t := w / c as real;
    assert t >= 0.0;
    assert t * c as real == w;
    assert t * k as real + t == t * (k as real + 1.0);
    MulMonotoneReal(k as real + 1.0, c as real, t);
    MulMonotoneReal(0.0, k as real, t);
  }

  /** Slot a of width t >= 0 ends at or before slot b > a starts. */
  lemma SpansApart(t: real, a: nat, b: nat)
    requires a < b && t >= 0.0
    ensures t * a as real + t <= t * b as real
  {
    assert t * a as real + t == t * (a as real + 1.0);
    MulMonotoneReal(a as real + 1.0, b as real, t);
  }

  /** The tiles of two different tabs do not overlap. */
  lemma TilesDisjoint(i: nat, j: nat, n: nat, width: real, height: real)
    requires i < n && j < n && i != j && width >= 0.0 && height >= 0.0
    ensures Apart(TileOf(i, n, width, height), TileOf(j, n, width, height))
  {
    var rows, cols := Rows(n), Cols(n);
    CellsDistinct(cols, i, j);
    CellTilesDisjoint(width / cols as real, height / rows as real, CellOf(i, cols), CellOf(j, cols));
  }

  /** Distinct cells of one grid have tiles that do not overlap. */
  lemma CellTilesDisjoint(tileWidth: real, tileHeight: real, ci: Cell, cj: Cell)
    requires tileWidth >= 0.0 && tileHeight >= 0.0 && ci != cj
    ensures Apart(CellTile(tileWidth, tileHeight, ci), CellTile(tileWidth, tileHeight, cj))
  {
    if ci.col != cj.col {
      var (l, r) := if ci.col < cj.col then (ci, cj) else (cj, ci);
      SpansApart(tileWidth, l.col, r.col);
      calc {
        CellTile(tileWidth, tileHeight, l).left + CellTile(tileWidth, tileHeight, l).width;
        == tileWidth * l.col as real + tileWidth;
        <= tileWidth * r.col as real;
        == CellTile(tileWidth, tileHeight, r).left;
      }
    } else {
      var (u, d) := if ci.row < cj.row then (ci, cj) else (cj, ci);
      SpansApart(tileHeight, u.row, d.row);
      calc {
        CellTile(tileWidth, tileHeight, u).top + CellTile(tileWidth, tileHeight, u).height;
        == tileHeight * u.row as real + tileHeight;
        <= tileHeight * d.row as real;
        == CellTile(tileWidth, tileHeight, d).top;
      }
    }
  }

  /** Five tabs in a 1000 x 1000 window: the fifth tile is 500 x 1000/3 at offset (0, 2000/3). */
  lemma FiveTabsTile()
    ensures TileOf(4, 5, 1000.0, 1000.0) == Tile(0.0, 2000.0 / 3.0, 500.0, 1000.0 / 3.0)
  {
    FiveTabs();
    assert TileOf(4, 5, 1000.0, 1000.0) == CellTile(1000.0 / 2 as real, 1000.0 / 3 as real, CellOf(4, 2));
    assert CellTile(1000.0 / 2.0, 1000.0 / 3.0, Cell(2, 0)) == Tile(0.0, 2000.0 / 3.0, 500.0, 1000.0 / 3.0);
  }
}
