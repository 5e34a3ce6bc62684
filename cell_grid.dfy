/**
  The cell grid indexer of the E2 manager: a tower's 4-connected neighbours
  on a rows x columns grid, and the synthetic identifiers (ECI of a cell,
  C-RNTI of a UE) derived from the ordinal in a name.

  The neighbour arithmetic is reproduced as written: the row is `id / rows`,
  the column `id % cols` and a neighbour's number `x * rows + y + 1`, with
  Go's truncating division. This is a consistent grid only when rows == cols;
  the properties one expects of a grid are proved under that condition.
 */
module CellGrid {
  import opened Wrappers
  import opened Text
  import opened Types
  import opened Seqs

  function Min(x: int, y: int): (r: int)
    ensures r <= x && r <= y && (r == x || r == y)
  {
    if x < y then x else y
  }

  function Max(x: int, y: int): (r: int)
    ensures r >= x && r >= y && (r == x || r == y)
  {
    if x > y then x else y
  }

  /** Go's `/` on int: truncates toward zero. */
  function GoDiv(a: int, b: int): int
    requires b > 0
  {
    if a >= 0 then a / b else -((-a) / b)
  }

  /** Go's `%` on int: the remainder takes the sign of the dividend. */
  function GoRem(a: int, b: int): int
    requires b > 0
  {
    if a >= 0 then a % b else -((-a) % b)
  }

  // ---------------------------------------------------------------------------
  // Cells and the scan of makeNeighbors
  // ---------------------------------------------------------------------------

  datatype Cell = Cell(row: int, col: int)

  /** The cell makeNeighbors places a tower at: (id / rows, id % cols) with id = ordinal - 1. */
  function CellOf(ordinal: nat, nrows: nat, ncols: nat): Cell
    requires nrows > 0 && ncols > 0
  {
    var id := ordinal - 1;
    Cell(GoDiv(id, nrows), GoRem(id, ncols))
  }

  /** The rows and columns the two loops of makeNeighbors run over, inclusive. */
  datatype Window = Window(rowLo: int, rowHi: int, colLo: int, colHi: int)

  function ScanWindow(at: Cell, nrows: nat, ncols: nat): Window {
    Window(Max(0, at.row - 1), Min(at.row + 1, nrows - 1), Max(0, at.col - 1), Min(at.col + 1, ncols - 1))
  }

  predicate InWindow(c: Cell, w: Window) {
    w.rowLo <= c.row <= w.rowHi && w.colLo <= c.col <= w.colHi
  }

  /** The test inside the loops: left, right, up or down of `at`. */
  predicate Adjacent(c: Cell, at: Cell) {
    (c.row == at.row && c.col == at.col - 1) || (c.row == at.row && c.col == at.col + 1) ||
    (c.row == at.row - 1 && c.col == at.col) || (c.row == at.row + 1 && c.col == at.col)
  }

  function Up(at: Cell): Cell { Cell(at.row - 1, at.col) }
  function Left(at: Cell): Cell { Cell(at.row, at.col - 1) }
  function Right(at: Cell): Cell { Cell(at.row, at.col + 1) }
  function Down(at: Cell): Cell { Cell(at.row + 1, at.col) }

  /** [x] when b holds, [] otherwise. */
  function Keep<T>(x: T, b: bool): seq<T> {
    if b then [x] else []
  }

  /**
    The adjacent cells of `at` inside the window, in row-major order: the four
    candidates up, left, right, down are already in that order.
   */
  function NeighborCells(at: Cell, w: Window): seq<Cell> {
    Keep(Up(at), InWindow(Up(at), w)) + Keep(Left(at), InWindow(Left(at), w)) +
    Keep(Right(at), InWindow(Right(at), w)) + Keep(Down(at), InWindow(Down(at), w))
  }

  /** The cells of row x, columns y..yHi, that the inner loop keeps, in the order it keeps them. */
  function RowScan(at: Cell, x: int, y: int, yHi: int): seq<Cell>
    decreases yHi - y
  {
    if y > yHi then [] else Keep(Cell(x, y), Adjacent(Cell(x, y), at)) + RowScan(at, x, y + 1, yHi)
  }

  /** The cells of rows x..rowHi of the window that the outer loop keeps, in order. */
  function GridScan(at: Cell, w: Window, x: int): seq<Cell>
    decreases w.rowHi - x
  {
    if x > w.rowHi then [] else RowScan(at, x, w.colLo, w.colHi) + GridScan(at, w, x + 1)
  }

  /** A row of the scan holds the left and right neighbours, or the one above or below, or nothing. */
  lemma {:induction false} RowScanClosed(at: Cell, x: int, y: int, yHi: int)
    ensures RowScan(at, x, y, yHi) ==
      if x == at.row then Keep(Left(at), y <= at.col - 1 <= yHi) + Keep(Right(at), y <= at.col + 1 <= yHi)
      else if x == at.row - 1 || x == at.row + 1 then Keep(Cell(x, at.col), y <= at.col <= yHi)
      else []
    decreases yHi - y
  {
    if y <= yHi {
      RowScanClosed(at, x, y + 1, yHi);
      var c := Cell(x, y);
      if x == at.row && y == at.col - 1 {
        assert RowScan(at, x, y, yHi) == [c] + Keep(Right(at), y + 1 <= at.col + 1 <= yHi);
      } else if x == at.row && y == at.col + 1 {
        assert RowScan(at, x, y, yHi) == [] + Keep(Right(at), y <= at.col + 1 <= yHi);
      } else if x == at.row {
        assert !Adjacent(c, at);
        assert RowScan(at, x, y, yHi) == [] + RowScan(at, x, y + 1, yHi);
      } else if (x == at.row - 1 || x == at.row + 1) && y == at.col {
        assert RowScan(at, x, y, yHi) == [c] + [];
      } else {
        assert !Adjacent(c, at);
        assert RowScan(at, x, y, yHi) == [] + RowScan(at, x, y + 1, yHi);
      }
    }
  }

  /** The in-window neighbours of `at` whose row is at least x, in row-major order. */
  function NeighborsFrom(at: Cell, w: Window, x: int): seq<Cell> {
    Keep(Up(at), InWindow(Up(at), w) && x <= at.row - 1) +
    Keep(Left(at), InWindow(Left(at), w) && x <= at.row) +
    Keep(Right(at), InWindow(Right(at), w) && x <= at.row) +
    Keep(Down(at), InWindow(Down(at), w) && x <= at.row + 1)
  }

  /** The rows from x on of the scan keep exactly NeighborsFrom(at, w, x). */
  lemma {:induction false} GridScanClosed(at: Cell, w: Window, x: int)
    requires w.rowLo <= x
    ensures GridScan(at, w, x) == NeighborsFrom(at, w, x)
    decreases w.rowHi - x
  {
    if x <= w.rowHi {
      GridScanClosed(at, w, x + 1);
      NeighborsFromStep(at, w, x);
    } else {
      assert NeighborsFrom(at, w, x) == [] + [] + [] + [];
    }
  }

  /** Row x of the window contributes its neighbours in front of those of the later rows. */
  lemma NeighborsFromStep(at: Cell, w: Window, x: int)
    requires w.rowLo <= x <= w.rowHi
    ensures NeighborsFrom(at, w, x) == RowScan(at, x, w.colLo, w.colHi) + NeighborsFrom(at, w, x + 1)
  {
    RowScanClosed(at, x, w.colLo, w.colHi);
    if x == at.row - 1 {
      StepAbove(at, w, x);
    } else if x == at.row {
      assert NeighborsFrom(at, w, x + 1) == [] + [] + [] + Keep(Down(at), InWindow(Down(at), w));
      assert NeighborsFrom(at, w, x) == [] + Keep(Left(at), InWindow(Left(at), w)) + Keep(Right(at), InWindow(Right(at), w)) + Keep(Down(at), InWindow(Down(at), w));
    } else if x == at.row + 1 {
      assert NeighborsFrom(at, w, x + 1) == [] + [] + [] + [];
      assert NeighborsFrom(at, w, x) == [] + [] + [] + Keep(Down(at), InWindow(Down(at), w));
    } else if x < at.row - 1 {
      assert NeighborsFrom(at, w, x + 1) == NeighborsFrom(at, w, x);
    } else {
      assert NeighborsFrom(at, w, x + 1) == [] + [] + [] + [];
      assert NeighborsFrom(at, w, x) == [] + [] + [] + [];
    }
  }

  /** The row just above `at` contributes the neighbour above it. */
  lemma StepAbove(at: Cell, w: Window, x: int)
    requires w.rowLo <= x <= w.rowHi && x == at.row - 1
    ensures NeighborsFrom(at, w, x) == Keep(Up(at), InWindow(Up(at), w)) + NeighborsFrom(at, w, x + 1)
  {
    var u := Keep(Up(at), InWindow(Up(at), w));
    var l := Keep(Left(at), InWindow(Left(at), w));
    var r := Keep(Right(at), InWindow(Right(at), w));
    var d := Keep(Down(at), InWindow(Down(at), w));
    assert NeighborsFrom(at, w, x + 1) == (l + r) + d by {
      assert NeighborsFrom(at, w, x + 1) == [] + l + r + d;
    }
    calc {
      NeighborsFrom(at, w, x);
      ((u + l) + r) + d;
      { AppendAssoc(u, l, r); }
      (u + (l + r)) + d;
      { AppendAssoc(u, l + r, d); }
      u + ((l + r) + d);
    }
  }


  /** The whole scan keeps exactly NeighborCells. */
  lemma ScanIsNeighborCells(at: Cell, w: Window)
    ensures GridScan(at, w, w.rowLo) == NeighborCells(at, w)
  {
    GridScanClosed(at, w, w.rowLo);
    assert NeighborsFrom(at, w, w.rowLo) == NeighborCells(at, w);
  }

  // ---------------------------------------------------------------------------
  // Numbers and names
  // ---------------------------------------------------------------------------

  /** The ordinal makeNeighbors gives a cell: x * rows + y + 1. */
  function CellNumber(c: Cell, nrows: nat): int {
    c.row * nrows + c.col + 1
  }

  function Numbers(cs: seq<Cell>, nrows: nat): (ns: seq<int>)
    ensures |ns| == |cs|
    ensures forall k :: 0 <= k < |cs| ==> ns[k] == CellNumber(cs[k], nrows)
  {
    if cs == [] then [] else [CellNumber(cs[0], nrows)] + Numbers(cs[1..], nrows)
  }

  /** fmt.Sprintf("Tower-%d", num). */
  function TowerName(num: int): string {
    "Tower-" + SignedDecimal(num)
  }

  function TowerNames(ns: seq<int>): (names: seq<string>)
    ensures |names| == |ns|
    ensures forall k :: 0 <= k < |ns| ==> names[k] == TowerName(ns[k])
  {
    if ns == [] then [] else [TowerName(ns[0])] + TowerNames(ns[1..])
  }

  /** names[k] is the name of cell cs[k], for every k. */
  predicate Named(names: seq<string>, cs: seq<Cell>, nrows: nat) {
    |names| == |cs| && forall k :: 0 <= k < |cs| ==> names[k] == TowerName(CellNumber(cs[k], nrows))
  }

  lemma {:induction false} NamedIsTowerNames(names: seq<string>, cs: seq<Cell>, nrows: nat)
    requires Named(names, cs, nrows)
    ensures names == TowerNames(Numbers(cs, nrows))
  {
    if cs != [] {
      NamedIsTowerNames(names[1..], cs[1..], nrows);
    }
  }

  /** The ordinals makeNeighbors names for the tower with ordinal `ordinal`. */
  function NeighborNumbers(ordinal: nat, nrows: nat, ncols: nat): seq<int>
    requires nrows > 0 && ncols > 0
  {
    var at := CellOf(ordinal, nrows, ncols);
    Numbers(NeighborCells(at, ScanWindow(at, nrows, ncols)), nrows)
  }

  /** What makeNeighbors returns for a tower name. */
  function Neighbors(towerName: string, params: TowersParams): seq<string>
    requires Ordinal(towerName).Some?
    requires params.towerRows > 0 && params.towerCols > 0
  {
    TowerNames(NeighborNumbers(Ordinal(towerName).value, params.towerRows, params.towerCols))
  }

  /** makeNeighbors: reads the ordinal of the name and places the tower on the grid. */
  method MakeNeighbors(towerName: string, params: TowersParams) returns (neighbors: seq<string>)
    requires Ordinal(towerName).Some?
    requires params.towerRows > 0 && params.towerCols > 0
    ensures neighbors == Neighbors(towerName, params)
  {
    var id: int := Ordinal(towerName).value - 1;
    var i := GoDiv(id, params.towerRows);
    var j := GoRem(id, params.towerCols);
    neighbors := ScanNeighbors(i, j, params.towerRows, params.towerCols);
  }

  /**
    The two nested loops of makeNeighbors: every cell of the clipped window
    around (i, j) in row-major order, keeping the four adjacent ones.
   */
  method ScanNeighbors(i: int, j: int, nrows: nat, ncols: nat) returns (neighbors: seq<string>)
    ensures neighbors == TowerNames(Numbers(NeighborCells(Cell(i, j), ScanWindow(Cell(i, j), nrows, ncols)), nrows))
  {
    neighbors := [];
    ghost var at := Cell(i, j);
    ghost var w := ScanWindow(at, nrows, ncols);
    ghost var cells: seq<Cell> := [];

    var x := Max(0, i - 1);
    while x <= Min(i + 1, nrows - 1)
      invariant w.rowLo <= x <= Max(w.rowLo, w.rowHi + 1)
      invariant cells + GridScan(at, w, x) == GridScan(at, w, w.rowLo)
      invariant Named(neighbors, cells, nrows)
    {
      ghost var rowStart := cells;
      cells, neighbors := ScanRow(i, j, nrows, ncols, x, cells, neighbors);
      AppendAssoc(rowStart, RowScan(at, x, w.colLo, w.colHi), GridScan(at, w, x + 1));
      x := x + 1;
    }
    assert GridScan(at, w, x) == [];
    assert cells == GridScan(at, w, w.rowLo);
    ScanIsNeighborCells(at, w);
    NamedIsTowerNames(neighbors, cells, nrows);
  }

  /** The inner loop of makeNeighbors over the columns of row x. */
  method ScanRow(i: int, j: int, nrows: nat, ncols: nat, x: int, ghost cells: seq<Cell>, neighbors: seq<string>)
    returns (ghost cells': seq<Cell>, neighbors': seq<string>)
    requires Named(neighbors, cells, nrows)
    ensures cells' == cells + RowScan(Cell(i, j), x, Max(0, j - 1), Min(j + 1, ncols - 1))
    ensures Named(neighbors', cells', nrows)
  {
    ghost var at := Cell(i, j);
    ghost var lo, hi := Max(0, j - 1), Min(j + 1, ncols - 1);
    cells', neighbors' := cells, neighbors;
    var y := Max(0, j - 1);
    while y <= Min(j + 1, ncols - 1)
      invariant cells' + RowScan(at, x, y, hi) == cells + RowScan(at, x, lo, hi)
      invariant Named(neighbors', cells', nrows)
      decreases hi - y
    {
      RowStep(at, x, y, hi, cells', cells + RowScan(at, x, lo, hi));
      if (x == i && y == j - 1) || (x == i && y == j + 1) || (x == i - 1 && y == j) || (x == i + 1 && y == j) {
        var towerNum := x * nrows + y + 1;
        neighbors' := neighbors' + [TowerName(towerNum)];
        cells' := cells' + [Cell(x, y)];
      } else {
        assert cells' + [] == cells';
      }
      y := y + 1;
    }
    RowEnd(at, x, y, hi, cells');
  }

  lemma RowStep(at: Cell, x: int, y: int, hi: int, cs: seq<Cell>, total: seq<Cell>)
    requires y <= hi && cs + RowScan(at, x, y, hi) == total
    ensures cs + Keep(Cell(x, y), Adjacent(Cell(x, y), at)) + RowScan(at, x, y + 1, hi) == total
  {
    AppendAssoc(cs, Keep(Cell(x, y), Adjacent(Cell(x, y), at)), RowScan(at, x, y + 1, hi));
  }

  lemma RowEnd(at: Cell, x: int, y: int, hi: int, cs: seq<Cell>)
    requires y > hi
    ensures cs + RowScan(at, x, y, hi) == cs
  {
    assert RowScan(at, x, y, hi) == [];
  }

  // ---------------------------------------------------------------------------
  // What the neighbour lists satisfy
  // ---------------------------------------------------------------------------

  predicate InGrid(c: Cell, nrows: nat, ncols: nat) {
    0 <= c.row < nrows && 0 <= c.col < ncols
  }

  /** The kept cells are the adjacent cells inside the window: at most four, never `at` itself. */
  lemma NeighborCellsMembers(at: Cell, w: Window)
    ensures |NeighborCells(at, w)| <= 4
    ensures at !in NeighborCells(at, w)
    ensures forall c :: c in NeighborCells(at, w) <==> InWindow(c, w) && Adjacent(c, at)
  {
    forall c | InWindow(c, w) && Adjacent(c, at)
      ensures c in NeighborCells(at, w)
    {
      if c == Up(at) {
        assert NeighborCells(at, w)[0] == c;
      } else if c == Left(at) {
        assert c in Keep(Left(at), InWindow(Left(at), w));
      } else if c == Right(at) {
        assert c in Keep(Right(at), InWindow(Right(at), w));
      } else {
        assert c in Keep(Down(at), InWindow(Down(at), w));
      }
    }
  }

  /** The clipped window never leaves the grid. */
  lemma WindowInGrid(at: Cell, nrows: nat, ncols: nat, c: Cell)
    requires InWindow(c, ScanWindow(at, nrows, ncols))
    ensures InGrid(c, nrows, ncols)
  {
  }

  /** For a cell inside the grid, an adjacent cell lies in the window exactly when it lies in the grid. */
  lemma AdjacentInWindow(at: Cell, nrows: nat, ncols: nat, c: Cell)
    requires InGrid(at, nrows, ncols) && Adjacent(c, at)
    ensures InWindow(c, ScanWindow(at, nrows, ncols)) <==> InGrid(c, nrows, ncols)
  {
  }

  /**
    On any grid, makeNeighbors names at most four towers, and the k-th name is
    the name of a grid cell one step up, left, right or down from the tower's
    cell (id / rows, id % cols).
   */
  lemma NeighborsShape(towerName: string, params: TowersParams)
    requires Ordinal(towerName).Some?
    requires params.towerRows > 0 && params.towerCols > 0
    ensures var nrows, ncols := params.towerRows, params.towerCols;
      var at := CellOf(Ordinal(towerName).value, nrows, ncols);
      var cells := NeighborCells(at, ScanWindow(at, nrows, ncols));
      var names := Neighbors(towerName, params);
      && |names| == |cells| <= 4
      && forall k :: 0 <= k < |cells| ==>
           names[k] == TowerName(CellNumber(cells[k], nrows)) && InGrid(cells[k], nrows, ncols) && Adjacent(cells[k], at)
  {
    var nrows, ncols := params.towerRows, params.towerCols;
    var at := CellOf(Ordinal(towerName).value, nrows, ncols);
    var w := ScanWindow(at, nrows, ncols);
    NeighborCellsMembers(at, w);
    forall k | 0 <= k < |NeighborCells(at, w)|
      ensures InGrid(NeighborCells(at, w)[k], nrows, ncols)
    {
      assert NeighborCells(at, w)[k] in NeighborCells(at, w);
      WindowInGrid(at, nrows, ncols, NeighborCells(at, w)[k]);
    }
  }

  // ---------------------------------------------------------------------------
  // Square grids: rows == cols == n
  // ---------------------------------------------------------------------------

  lemma MulMono(a: int, b: int, n: nat)
    requires a <= b
    ensures a * n <= b * n
  {
    assert b * n == a * n + (b - a) * n;
  }

  /** Euclidean division is unique: q and r are the quotient and remainder of q * n + r. */
  lemma DivModUnique(a: int, n: nat, q: int, r: int)
    requires n > 0 && 0 <= r < n && a == q * n + r
    ensures a / n == q && a % n == r
  {
    var q', r' := a / n, a % n;
    assert a == q' * n + r';
    if q' > q {
      MulMono(q + 1, q', n);
    } else if q' < q {
      MulMono(q' + 1, q, n);
    }
  }

  /** On an n x n grid, tower o (1 <= o <= n*n) sits inside the grid and its cell numbers back to o. */
  lemma SquarePlace(o: nat, n: nat)
    requires n > 0 && 1 <= o <= n * n
    ensures InGrid(CellOf(o, n, n), n, n) && CellNumber(CellOf(o, n, n), n) == o
  {
    var id := o - 1;
    assert id == (id / n) * n + id % n;
    if id / n >= n {
      MulMono(n, id / n, n);
    }
  }

  /** On an n x n grid every grid cell has a number in 1..n*n, and that number places the tower back at the cell. */
  lemma SquareNumberPlace(c: Cell, n: nat)
    requires n > 0 && InGrid(c, n, n)
    ensures 1 <= CellNumber(c, n) <= n * n && CellOf(CellNumber(c, n), n, n) == c
  {
    MulMono(c.row, n - 1, n);
    DivModUnique(CellNumber(c, n) - 1, n, c.row, c.col);
  }

  /** On an n x n grid, p is a neighbour number of o exactly when p is a grid cell adjacent to o's cell. */
  lemma SquareNeighborMembers(o: nat, n: nat, p: int)
    requires n > 0 && 1 <= o <= n * n
    ensures p in NeighborNumbers(o, n, n) <==> 1 <= p <= n * n && Adjacent(CellOf(p, n, n), CellOf(o, n, n))
  {
    var at := CellOf(o, n, n);
    var w := ScanWindow(at, n, n);
    var cells := NeighborCells(at, w);
    SquarePlace(o, n);
    NeighborCellsMembers(at, w);
    if p in NeighborNumbers(o, n, n) {
      var k :| 0 <= k < |cells| && NeighborNumbers(o, n, n)[k] == p;
      var c := cells[k];
      assert c in cells;
      WindowInGrid(at, n, n, c);
      SquareNumberPlace(c, n);
    }
    if 1 <= p <= n * n && Adjacent(CellOf(p, n, n), at) {
      var c := CellOf(p, n, n);
      SquarePlace(p, n);
      AdjacentInWindow(at, n, n, c);
      var k :| 0 <= k < |cells| && cells[k] == c;
      assert NeighborNumbers(o, n, n)[k] == p;
    }
  }

  /** On an n x n grid no tower is its own neighbour, and every neighbour number is a tower of the grid. */
  lemma SquareNeighborsProper(o: nat, n: nat)
    requires n > 0 && 1 <= o <= n * n
    ensures o !in NeighborNumbers(o, n, n)
    ensures forall p :: p in NeighborNumbers(o, n, n) ==> 1 <= p <= n * n
  {
    SquareNeighborMembers(o, n, o);
    forall p | p in NeighborNumbers(o, n, n)
      ensures 1 <= p <= n * n
    {
      SquareNeighborMembers(o, n, p);
    }
  }

  /** Neighbourhood is symmetric on an n x n grid. */
  lemma SquareSymmetric(a: nat, b: nat, n: nat)
    requires n > 0 && 1 <= a <= n * n && 1 <= b <= n * n
    ensures a in NeighborNumbers(b, n, n) <==> b in NeighborNumbers(a, n, n)
  {
    SquareNeighborMembers(b, n, a);
    SquareNeighborMembers(a, n, b);
  }

  /**
    The closed form on an n x n grid: o - n (up), o - 1 (left), o + 1 (right),
    o + n (down), each when that cell is inside the grid, in this ascending order.
   */
  function SquareNeighborNumbers(o: nat, n: nat): seq<int>
    requires n > 0 && 1 <= o
  {
    FourWay(o, n, (o - 1) / n, (o - 1) % n)
  }

  /** The numbers up, left, right and down of tower o standing at row r, column c of an n x n grid. */
  function FourWay(o: int, n: int, r: int, c: int): seq<int> {
    Keep(o - n, r > 0) + Keep(o - 1, c > 0) + Keep(o + 1, c < n - 1) + Keep(o + n, r < n - 1)
  }

  lemma SquareClosedForm(o: nat, n: nat)
    requires n > 0 && 1 <= o <= n * n
    ensures NeighborNumbers(o, n, n) == SquareNeighborNumbers(o, n)
  {
    var at := CellOf(o, n, n);
    SquarePlace(o, n);
    assert at == Cell((o - 1) / n, (o - 1) % n);
    CellClosedForm(at, n);
  }

  /** The neighbour numbers of a grid cell, stated with its row and column. */
  lemma CellClosedForm(at: Cell, n: nat)
    requires n > 0 && InGrid(at, n, n)
    ensures Numbers(NeighborCells(at, ScanWindow(at, n, n)), n) == FourWay(CellNumber(at, n), n, at.row, at.col)
  {
    var w := ScanWindow(at, n, n);
    NumberSides(at, n);
    WindowSides(at, n);
    NumbersOfKeeps(Up(at), InWindow(Up(at), w), Left(at), InWindow(Left(at), w),
                   Right(at), InWindow(Right(at), w), Down(at), InWindow(Down(at), w), n);
    FourWayOf(CellNumber(Up(at), n), InWindow(Up(at), w), CellNumber(Left(at), n), InWindow(Left(at), w),
              CellNumber(Right(at), n), InWindow(Right(at), w), CellNumber(Down(at), n), InWindow(Down(at), w),
              CellNumber(at, n), n, at.row, at.col);
  }

  lemma FourWayOf(a: int, ba: bool, b: int, bb: bool, c: int, bc: bool, d: int, bd: bool, o: int, n: int, r: int, col: int)
    requires a == o - n && b == o - 1 && c == o + 1 && d == o + n
    requires ba == (r > 0) && bb == (col > 0) && bc == (col < n - 1) && bd == (r < n - 1)
    ensures Keep(a, ba) + Keep(b, bb) + Keep(c, bc) + Keep(d, bd) == FourWay(o, n, r, col)
  {
  }

  /** The four candidates are numbered n before, one before, one after and n after the cell. */
  lemma NumberSides(at: Cell, n: nat)
    ensures CellNumber(Up(at), n) == CellNumber(at, n) - n && CellNumber(Down(at), n) == CellNumber(at, n) + n
    ensures CellNumber(Left(at), n) == CellNumber(at, n) - 1 && CellNumber(Right(at), n) == CellNumber(at, n) + 1
  {
    RowShift(at.row, n);
  }

  /** Inside an n x n grid a candidate is in the scan window exactly when it is inside the grid. */
  lemma WindowSides(at: Cell, n: nat)
    requires n > 0 && InGrid(at, n, n)
    ensures var w := ScanWindow(at, n, n);
      && InWindow(Up(at), w) == (at.row > 0) && InWindow(Down(at), w) == (at.row < n - 1)
      && InWindow(Left(at), w) == (at.col > 0) && InWindow(Right(at), w) == (at.col < n - 1)
  {
  }

  lemma RowShift(r: int, n: int)
    ensures (r - 1) * n == r * n - n && (r + 1) * n == r * n + n
  {
  }

  lemma NumbersOfKeeps(u: Cell, bu: bool, l: Cell, bl: bool, r: Cell, br: bool, d: Cell, bd: bool, n: nat)
    ensures Numbers(Keep(u, bu) + Keep(l, bl) + Keep(r, br) + Keep(d, bd), n) ==
      Keep(CellNumber(u, n), bu) + Keep(CellNumber(l, n), bl) + Keep(CellNumber(r, n), br) + Keep(CellNumber(d, n), bd)
  {
    var cs := Keep(u, bu) + Keep(l, bl) + Keep(r, br) + Keep(d, bd);
    var ns := Keep(CellNumber(u, n), bu) + Keep(CellNumber(l, n), bl) + Keep(CellNumber(r, n), br) + Keep(CellNumber(d, n), bd);
    assert |Numbers(cs, n)| == |ns|;
  }

  predicate Ascending(ns: seq<int>) {
    forall k, m :: 0 <= k < m < |ns| ==> ns[k] < ns[m]
  }

  lemma AscendingAppend(xs: seq<int>, ys: seq<int>)
    requires Ascending(xs) && Ascending(ys)
    requires forall x, y :: x in xs && y in ys ==> x < y
    ensures Ascending(xs + ys)
  {
    forall k, m | 0 <= k < m < |xs + ys|
      ensures (xs + ys)[k] < (xs + ys)[m]
    {
      if m >= |xs| && k < |xs| {
        assert xs[k] in xs && ys[m - |xs|] in ys;
      }
    }
  }

  lemma AscendingKeeps(a: int, ba: bool, b: int, bb: bool, c: int, bc: bool, d: int, bd: bool)
    requires a < b < c < d
    ensures Ascending(Keep(a, ba) + Keep(b, bb) + Keep(c, bc) + Keep(d, bd))
  {
    AscendingAppend(Keep(a, ba), Keep(b, bb));
    AscendingAppend(Keep(a, ba) + Keep(b, bb), Keep(c, bc));
    AscendingAppend(Keep(a, ba) + Keep(b, bb) + Keep(c, bc), Keep(d, bd));
  }

  /** On an n x n grid the neighbour numbers are strictly ascending (row-major order). */
  lemma SquareAscending(o: nat, n: nat)
    requires n > 0 && 1 <= o <= n * n
    ensures Ascending(NeighborNumbers(o, n, n))
  {
    SquareClosedForm(o, n);
    ClosedFormAscending(o, n);
  }

  lemma ClosedFormAscending(o: nat, n: nat)
    requires n > 0 && 1 <= o <= n * n
    ensures Ascending(SquareNeighborNumbers(o, n))
  {
    if n == 1 {
      assert SquareNeighborNumbers(o, n) == [];
    } else {
      FourWayAscending(o, n, (o - 1) / n, (o - 1) % n);
    }
  }

  lemma FourWayAscending(o: int, n: int, r: int, c: int)
    requires n > 1
    ensures Ascending(FourWay(o, n, r, c))
  {
    AscendingKeeps(o - n, r > 0, o - 1, c > 0, o + 1, c < n - 1, o + n, r < n - 1);
  }

  /** Tower-b is read back as ordinal b, so makeNeighbors on its name scans from ordinal b. */
  lemma NeighborsOfTower(b: nat, params: TowersParams)
    requires params.towerRows > 0 && params.towerCols > 0
    ensures Ordinal(TowerName(b)) == Some(b)
    ensures Neighbors(TowerName(b), params) == TowerNames(NeighborNumbers(b, params.towerRows, params.towerCols))
  {
    assert TowerName(b) == "Tower-" + Decimal(b);
    OrdinalAfterPrefix("Tower-", b);
  }

  /** The name-level statement of symmetry: Tower-a neighbours Tower-b iff Tower-b neighbours Tower-a. */
  lemma SquareNeighborsSymmetric(a: nat, b: nat, params: TowersParams)
    requires params.towerRows == params.towerCols > 0
    requires 1 <= a <= params.towerRows * params.towerRows && 1 <= b <= params.towerRows * params.towerRows
    ensures Ordinal(TowerName(a)).Some? && Ordinal(TowerName(b)).Some?
    ensures TowerName(a) in Neighbors(TowerName(b), params) <==> TowerName(b) in Neighbors(TowerName(a), params)
  {
    var n := params.towerRows;
    NeighborsOfTower(a, params);
    NeighborsOfTower(b, params);
    SquareNeighborsProper(a, n);
    SquareNeighborsProper(b, n);
    SquareSymmetric(a, b, n);
    NameInNames(a, NeighborNumbers(b, n, n));
    NameInNames(b, NeighborNumbers(a, n, n));
  }

  /** Distinct non-negative numbers give distinct tower names. */
  lemma TowerNameInjective(a: nat, b: nat)
    requires TowerName(a) == TowerName(b)
    ensures a == b
  {
    NeighborsOfTower(a, TowersParams(1, 1, 0));
    NeighborsOfTower(b, TowersParams(1, 1, 0));
  }

  lemma NameInNames(a: nat, ns: seq<int>)
    requires forall p :: p in ns ==> p >= 0
    ensures TowerName(a) in TowerNames(ns) <==> a in ns
  {
    if TowerName(a) in TowerNames(ns) {
      var k :| 0 <= k < |ns| && TowerNames(ns)[k] == TowerName(a);
      assert ns[k] in ns;
      TowerNameInjective(a, ns[k]);
    }
    if a in ns {
      var k :| 0 <= k < |ns| && ns[k] == a;
      assert TowerNames(ns)[k] == TowerName(a);
    }
  }

  // ---------------------------------------------------------------------------
  // Worked cases
  // ---------------------------------------------------------------------------

  /** The centre of a 3 x 3 grid has all four neighbours. */
  lemma CentreOfThreeByThree(maxUes: nat)
    ensures Ordinal("Tower-5").Some?
    ensures Neighbors("Tower-5", TowersParams(3, 3, maxUes)) == ["Tower-2", "Tower-4", "Tower-6", "Tower-8"]
  {
    var params := TowersParams(3, 3, maxUes);
    assert TowerName(5) == "Tower-5";
    NeighborsOfTower(5, params);
    SquareClosedForm(5, 3);
    assert NeighborNumbers(5, 3, 3) == [2, 4, 6, 8];
    NamesOfEvenDigits();
  }

  lemma NamesOfEvenDigits()
    ensures TowerNames([2, 4]) == ["Tower-2", "Tower-4"]
    ensures TowerNames([2, 4, 6, 8]) == ["Tower-2", "Tower-4", "Tower-6", "Tower-8"]
  {
    assert TowerName(2) == "Tower-2" && TowerName(4) == "Tower-4";
    assert TowerName(6) == "Tower-6" && TowerName(8) == "Tower-8";
  }

  /** A corner of a 3 x 3 grid has two. */
  lemma CornerOfThreeByThree(maxUes: nat)
    ensures Ordinal("Tower-1").Some?
    ensures Neighbors("Tower-1", TowersParams(3, 3, maxUes)) == ["Tower-2", "Tower-4"]
  {
    var params := TowersParams(3, 3, maxUes);
    assert TowerName(1) == "Tower-1";
    NeighborsOfTower(1, params);
    SquareClosedForm(1, 3);
    assert NeighborNumbers(1, 3, 3) == [2, 4];
    NamesOfEvenDigits();
  }

  /**
    The arithmetic as written on a grid with 2 rows and 3 columns: Tower-3 is
    placed at (1, 2) and the cell above it is numbered 0 * 2 + 2 + 1 = 3, so
    the tower lists itself.
   */
  lemma NonSquareListsItself(maxUes: nat)
    ensures Ordinal("Tower-3").Some?
    ensures Neighbors("Tower-3", TowersParams(2, 3, maxUes)) == ["Tower-3", "Tower-4"]
  {
    var params := TowersParams(2, 3, maxUes);
    assert TowerName(3) == "Tower-3";
    NeighborsOfTower(3, params);
    var at := CellOf(3, 2, 3);
    assert at == Cell(1, 2);
    var w := ScanWindow(at, 2, 3);
    assert w == Window(0, 1, 1, 2);
    assert NeighborCells(at, w) == [Cell(0, 2), Cell(1, 1)];
    assert NeighborNumbers(3, 2, 3) == [3, 4];
    assert TowerName(4) == "Tower-4";
  }

  /**
    Ordinal 0 gives id -1; Go's truncating division and remainder place it at
    (0, -1), whose right-hand cell is Tower-1.
   */
  lemma OrdinalZero(maxUes: nat)
    ensures Ordinal("Tower-0").Some?
    ensures Neighbors("Tower-0", TowersParams(3, 3, maxUes)) == ["Tower-1"]
  {
    var params := TowersParams(3, 3, maxUes);
    assert TowerName(0) == "Tower-0";
    NeighborsOfTower(0, params);
    var at := CellOf(0, 3, 3);
    assert at == Cell(0, -1);
    var w := ScanWindow(at, 3, 3);
    assert w == Window(0, 1, 0, 0);
    assert NeighborCells(at, w) == [Cell(0, 0)];
    assert NeighborNumbers(0, 3, 3) == [1];
    assert TowerName(1) == "Tower-1";
  }

  // ---------------------------------------------------------------------------
  // Identifiers: makeEci and makeCrnti
  // ---------------------------------------------------------------------------

  /** makeEci: the ordinal of the name as `%07X`. */
  function MakeEci(towerName: string): string
    requires Ordinal(towerName).Some?
  {
    FormatHex(Ordinal(towerName).value, 7)
  }

  /** makeCrnti: the ordinal of the name plus one, as `%04X`. */
  function MakeCrnti(ueName: string): string
    requires Ordinal(ueName).Some?
  {
    FormatHex(Ordinal(ueName).value + 1, 4)
  }

  /** The ECI is the ordinal in upper-case hex, at least seven digits long, and reads back as the ordinal. */
  lemma EciReadsBack(towerName: string)
    requires Ordinal(towerName).Some?
    ensures var eci := MakeEci(towerName);
      && |eci| == Max(7, |Hex(Ordinal(towerName).value)|)
      && AllHexDigits(eci) && ParseHex(eci) == Ordinal(towerName).value
  {
    FormatHexRoundTrip(Ordinal(towerName).value, 7);
  }

  /** The C-RNTI is the ordinal plus one in upper-case hex, at least four digits long, and reads back as it. */
  lemma CrntiReadsBack(ueName: string)
    requires Ordinal(ueName).Some?
    ensures var crnti := MakeCrnti(ueName);
      && |crnti| == Max(4, |Hex(Ordinal(ueName).value + 1)|)
      && AllHexDigits(crnti) && ParseHex(crnti) == Ordinal(ueName).value + 1
  {
    FormatHexRoundTrip(Ordinal(ueName).value + 1, 4);
  }

  /** Names with different ordinals get different ECIs, and different C-RNTIs. */
  lemma IdentifiersDistinct(a: string, b: string)
    requires Ordinal(a).Some? && Ordinal(b).Some? && Ordinal(a) != Ordinal(b)
    ensures MakeEci(a) != MakeEci(b) && MakeCrnti(a) != MakeCrnti(b)
  {
    EciReadsBack(a);
    EciReadsBack(b);
    CrntiReadsBack(a);
    CrntiReadsBack(b);
  }

  /** Exactly seven digits up to 0xFFFFFFF, exactly four up to 0xFFFF. */
  lemma IdentifierWidths(name: string)
    requires Ordinal(name).Some?
    ensures |MakeEci(name)| == 7 <==> Ordinal(name).value < 0x1000_0000
    ensures |MakeCrnti(name)| == 4 <==> Ordinal(name).value + 1 < 0x1_0000
  {
    EciReadsBack(name);
    CrntiReadsBack(name);
    HexLength(Ordinal(name).value, 7);
    HexLength(Ordinal(name).value + 1, 4);
    assert Pow16(7) == 0x1000_0000;
    assert Pow16(4) == 0x1_0000;
  }

  lemma EciOfOne()
    ensures Ordinal("Tower-1").Some? && MakeEci("Tower-1") == "0000001"
  {
    assert TowerName(1) == "Tower-1";
    NeighborsOfTower(1, TowersParams(1, 1, 0));
    assert Zeros(6) + "1" == "0000001";
  }

  lemma EciOf255()
    ensures Ordinal("Tower-255").Some? && MakeEci("Tower-255") == "00000FF"
  {
    assert TowerName(255) == "Tower-255";
    NeighborsOfTower(255, TowersParams(1, 1, 0));
    assert Hex(255) == "FF";
    assert Zeros(5) + "FF" == "00000FF";
  }
}
