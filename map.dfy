// The tile grid of src/map.ts: the integer cell-size arithmetic that fits a
// whole number of square cells to the canvas, the grid built from it, the
// enemy-path row and the tower tiles marked on it, and the overlay toggle.
//
// A JavaScript number produced by the cell-size arithmetic may be Infinity
// or NaN when the canvas is smaller than one 50-pixel cell; GridSize keeps
// those two outcomes.  An out-of-range row access, which throws a TypeError
// in the source, ends a method early with `ok == false`.

module MapGrid {
  import opened Wrappers

  datatype Tile = Empty | EnemyPath | TowerTile

  /** TILE_TYPES: the numeric codes the tiles are stored as. */
  function TileCode(t: Tile): (n: nat)
    ensures n < 3
  {
    match t
    case Empty => 0
    case EnemyPath => 1
    case TowerTile => 2
  }

  /** The pixel size the arithmetic aims for. */
  const TargetCell: nat := 50
  /** The grid row the enemy path occupies. */
  const PathRow: nat := 7

  datatype Canvas = Canvas(width: nat, height: nat)

  /** A cell size: a whole number of pixels, or Infinity, or NaN. */
  datatype GridSize = Cells(size: nat) | Infinite | NotANumber

  datatype GridDimensions = GridDimensions(width: nat, height: nat, cellSize: GridSize)

  function MinNat(a: nat, b: nat): nat { if a <= b then a else b }

  /** Floor division brackets its dividend. */
  lemma DivBracket(a: nat, b: nat)
    requires b > 0
    ensures (a / b) * b <= a < (a / b + 1) * b
  {
    assert a == (a / b) * b + a % b;
    assert (a / b + 1) * b == (a / b) * b + b;
  }

  /** A dividend of at least `c` times the divisor gives a quotient of at least `c`. */
  lemma DivAtLeast(a: nat, b: nat, c: nat)
    requires b > 0 && a >= c * b
    ensures a / b >= c
  {
    DivBracket(a, b);
  }

  /** Dividing by a positive whole number never increases a natural number. */
  lemma DivAtMost(a: nat, b: nat)
    requires b >= 1
    ensures a / b <= a
  {
    var q := a / b;
    DivBracket(a, b);
    assert q * b <= a;
    MulAtLeast(q, b);
  }

  /** Multiplying a natural number by a positive whole number never decreases it. */
  lemma MulAtLeast(q: nat, b: nat)
    requires b >= 1
    ensures q * b >= q
  {
    var r: nat := b - 1;
    assert q * b == q * r + q;
  }

  /** The first estimate: the shorter side split into as many cells as the
      shorter side holds 50-pixel cells. */
  function FitCellSize(w: nat, h: nat): (s: nat)
    requires w >= TargetCell && h >= TargetCell
    ensures TargetCell <= s <= MinNat(w, h)
  {
    var targetCells := MinNat(w / TargetCell, h / TargetCell);
    DivAtLeast(w, TargetCell, 1);
    DivAtLeast(h, TargetCell, 1);
    DivBracket(w, TargetCell);
    DivBracket(h, TargetCell);
    DivAtLeast(MinNat(w, h), targetCells, TargetCell);
    DivAtMost(MinNat(w, h), targetCells);
    MinNat(w, h) / targetCells
  }

  /** The refined size: the cell a side divides into when holding the whole
      number of `cellSize` cells it fits. */
  function WholeSide(side: nat, cellSize: nat): (s: nat)
    requires 0 < cellSize <= side
    ensures cellSize <= s <= side
  {
    DivAtLeast(side, cellSize, 1);
    DivBracket(side, cellSize);
    DivAtLeast(side, side / cellSize, cellSize);
    DivAtMost(side, side / cellSize);
    side / (side / cellSize)
  }

  /** The whole-cell size for a canvas.  For a canvas at least one target
      cell in each direction every division is by a positive whole number
      and the size lies between 50 pixels and the shorter canvas side;
      otherwise the target cell count is 0 and JavaScript yields Infinity,
      or NaN for a zero-sized side. */
  function CalculateGridSize(c: Canvas): (g: GridSize)
    ensures g.Cells? <==> c.width >= TargetCell && c.height >= TargetCell
    ensures g.Cells? ==> TargetCell <= g.size <= MinNat(c.width, c.height)
    ensures !g.Cells? ==> g == if c.width == 0 || c.height == 0 then NotANumber else Infinite
  {
    var w := c.width;
    var h := c.height;
    if w < TargetCell || h < TargetCell then
      if w == 0 || h == 0 then NotANumber else Infinite
    else
      var cellSize := FitCellSize(w, h);
      Cells(MinNat(WholeSide(w, cellSize), WholeSide(h, cellSize)))
  }

  /** Whole cells per side.  NaN dimensions have no representation here:
      the source's grid construction throws on them. */
  function GetGridDimensions(c: Canvas): (d: Option<GridDimensions>)
    ensures d.None? <==> CalculateGridSize(c) == NotANumber
    ensures d.Some? ==> d.value.cellSize == CalculateGridSize(c)
    ensures d.Some? && d.value.cellSize.Cells? ==>
      var s := d.value.cellSize.size;
      d.value.width >= 1 && d.value.height >= 1
      && d.value.width * s <= c.width < (d.value.width + 1) * s
      && d.value.height * s <= c.height < (d.value.height + 1) * s
    ensures d.Some? && d.value.cellSize == Infinite ==> d.value.width == 0 && d.value.height == 0
  {
    match CalculateGridSize(c)
    case NotANumber => None
    case Infinite => Some(GridDimensions(0, 0, Infinite))
    case Cells(s) =>
      DivBracket(c.width, s);
      DivBracket(c.height, s);
      DivAtLeast(c.width, s, 1);
      DivAtLeast(c.height, s, 1);
      Some(GridDimensions(c.width / s, c.height / s, Cells(s)))
  }

  /** The column count the marking loops run to: 0 without a canvas, and no
      iterations at all when the count is NaN. */
  function Columns(canvas: Option<Canvas>): nat
  {
    if canvas.None? then 0
    else match GetGridDimensions(canvas.value)
      case None => 0
      case Some(d) => d.width
  }

  /** The intended layout: the path row, tower tiles around it, the rest empty. */
  function Layout(i: nat, j: nat, width: nat): Tile
  {
    if i == PathRow then EnemyPath
    else if 5 <= i < 10 && 2 <= j < width - 2 then TowerTile
    else Empty
  }

  /** Tile (i, j) is inside the part of the tower window already visited
      when the loops stand at row y, column x. */
  predicate Visited(i: int, j: int, y: int, x: int, hi: int)
  {
    2 <= j < hi && (5 <= i < y || (i == y && j < x))
  }

  class TileMap {
    var grid: array2<Tile>
    var gridVisible: bool

    constructor ()
      ensures grid.Length0 == 0 && grid.Length1 == 0
      ensures !gridVisible
    {
      grid := new Tile[0, 0];
      gridVisible := false;
    }

    method ToggleGrid()
      modifies this`gridVisible
      ensures gridVisible == !old(gridVisible)
    {
      gridVisible := !gridVisible;
    }

    function IsGridVisible(): bool
      reads this
    {
      gridVisible
    }

    /** A fresh grid of `height` rows of `width` empty tiles; NaN dimensions
        throw (`Array(NaN)`) and leave the old grid. */
    method InitializeMapGrid(c: Canvas) returns (ok: bool)
      modifies this`grid
      ensures ok <==> GetGridDimensions(c).Some?
      ensures !ok ==> grid == old(grid)
      ensures ok ==>
        fresh(grid)
        && grid.Length0 == GetGridDimensions(c).value.height
        && grid.Length1 == GetGridDimensions(c).value.width
        && forall i, j :: 0 <= i < grid.Length0 && 0 <= j < grid.Length1 ==> grid[i, j] == Empty
    {
      var dims := GetGridDimensions(c);
      if dims.None? {
        return false;
      }
      grid := new Tile[dims.value.height, dims.value.width]((i, j) => Empty);
      ok := true;
    }

    /** Mark row 7, columns 0 .. width-1, as enemy path.  Without row 7 the
        first write throws. */
    method CreateEnemyPath(canvas: Option<Canvas>) returns (ok: bool)
      requires grid.Length0 > PathRow ==> Columns(canvas) <= grid.Length1
      modifies grid
      ensures ok <==> Columns(canvas) == 0 || grid.Length0 > PathRow
      ensures forall i, j :: 0 <= i < grid.Length0 && 0 <= j < grid.Length1 ==>
        grid[i, j] == if i == PathRow && j < Columns(canvas) then EnemyPath else old(grid[i, j])
    {
      var width := Columns(canvas);
      if width == 0 {
        return true;
      }
      if grid.Length0 <= PathRow {
        return false;
      }
      var x := 0;
      while x < width
        invariant 0 <= x <= width
        invariant forall i, j :: 0 <= i < grid.Length0 && 0 <= j < grid.Length1 ==>
          grid[i, j] == if i == PathRow && j < x then EnemyPath else old(grid[i, j])
      {
        grid[PathRow, x] := EnemyPath;
        x := x + 1;
      }
      ok := true;
    }

    /** In rows 5..9, columns 2 .. width-3, turn empty tiles into tower tiles.
        A missing row throws once the loop reaches it, after the rows before
        it are done. */
    method CreateTowerTiles(canvas: Option<Canvas>) returns (ok: bool)
      requires grid.Length0 > 5 ==> Columns(canvas) <= grid.Length1
      modifies grid
      ensures ok <==> Columns(canvas) <= 4 || grid.Length0 >= 10
      ensures forall i, j :: 0 <= i < grid.Length0 && 0 <= j < grid.Length1 ==>
        grid[i, j] ==
          if 5 <= i < 10 && 2 <= j < Columns(canvas) - 2 && old(grid[i, j]) == Empty
          then TowerTile else old(grid[i, j])
    {
      ok := MarkTowerWindow(Columns(canvas));
    }

    /** The loops of CreateTowerTiles for a given column count. */
    method MarkTowerWindow(width: nat) returns (ok: bool)
      requires grid.Length0 > 5 ==> width <= grid.Length1
      modifies grid
      ensures ok <==> width <= 4 || grid.Length0 >= 10
      ensures forall i, j :: 0 <= i < grid.Length0 && 0 <= j < grid.Length1 ==>
        grid[i, j] ==
          if 5 <= i < 10 && 2 <= j < width - 2 && old(grid[i, j]) == Empty
          then TowerTile else old(grid[i, j])
    {
      if width <= 4 {
        return true;
      }
      var hi := width - 2;
      var y := 5;
      while y < 10
        invariant 5 <= y <= 10
        invariant y == 5 || y <= grid.Length0
        invariant forall i, j :: 0 <= i < grid.Length0 && 0 <= j < grid.Length1 ==>
          grid[i, j] == if Visited(i, j, y, 0, hi) && old(grid[i, j]) == Empty then TowerTile else old(grid[i, j])
      {
        if y >= grid.Length0 {
          return false;
        }
        label before:
        MarkTowerRow(y, hi);
        forall i, j | 0 <= i < grid.Length0 && 0 <= j < grid.Length1
          ensures grid[i, j] == if Visited(i, j, y + 1, 0, hi) && old(grid[i, j]) == Empty then TowerTile else old(grid[i, j])
        {
          assert old@before(grid[i, j]) == if Visited(i, j, y, 0, hi) && old(grid[i, j]) == Empty then TowerTile else old(grid[i, j]);
        }
        y := y + 1;
      }
      ok := true;
    }

    /** One row of the tower window: columns 2 .. hi-1 of row y, empty
        tiles only. */
    method MarkTowerRow(y: nat, hi: nat)
      requires y < grid.Length0 && hi <= grid.Length1
      modifies grid
      ensures forall i, j :: 0 <= i < grid.Length0 && 0 <= j < grid.Length1 ==>
        grid[i, j] == if i == y && 2 <= j < hi && old(grid[i, j]) == Empty then TowerTile else old(grid[i, j])
    {
      var x := 2;
      while x < hi
        invariant 2 <= x && (x <= hi || x == 2)
        invariant forall i, j :: 0 <= i < grid.Length0 && 0 <= j < grid.Length1 ==>
          grid[i, j] == if i == y && 2 <= j < x && old(grid[i, j]) == Empty then TowerTile else old(grid[i, j])
      {
        if grid[y, x] == Empty {
          grid[y, x] := TowerTile;
        }
        x := x + 1;
      }
    }

    /** What the grid holds once the page has started: the marking calls run
        when the module is first imported, before any canvas exists, so they
        return at once; the grid is then built from the canvas on a resize. */
    method StartupAsWritten(c: Canvas) returns (ok: bool)
      requires grid.Length0 == 0 && grid.Length1 == 0
      modifies this`grid, grid
      ensures ok <==> GetGridDimensions(c).Some?
      ensures forall i, j :: 0 <= i < grid.Length0 && 0 <= j < grid.Length1 ==> grid[i, j] == Empty
    {
      var pathOk := CreateEnemyPath(None);
      var towersOk := CreateTowerTiles(None);
      ok := InitializeMapGrid(c);
    }

    /** The evidently intended start-up: build the grid, then mark the path,
        then the tower tiles.  On a grid of at least ten rows the result is
        the intended layout, and the tower tiles leave the path intact. */
    method Rebuild(c: Canvas) returns (ok: bool)
      modifies this`grid, grid
      ensures ok ==> GetGridDimensions(c).Some?
      ensures GetGridDimensions(c).Some? && GetGridDimensions(c).value.height >= 10 ==> ok
      ensures ok ==>
        forall i, j :: 0 <= i < grid.Length0 && 0 <= j < grid.Length1 ==>
          grid[i, j] == Layout(i, j, grid.Length1)
    {
      ok := InitializeMapGrid(c);
      if !ok {
        return;
      }
      var canvas := Some(c);
      assert Columns(canvas) == grid.Length1;
      if grid.Length0 < 10 {
        return false;
      }
      var pathOk := CreateEnemyPath(canvas);
      var towersOk := CreateTowerTiles(canvas);
    }
  }
}
