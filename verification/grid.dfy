/**
 * Grid geometry: the fixed 20 x 20 grid of 25-pixel cells the canvas is
 * sized to, the pixel-to-cell lookup of the hover handler, and the cell
 * centres the arrows are anchored at.
 */
module Grid {
  import opened Wrappers

  const GRID_CELL_SIZE: int := 25
  const GRID_ROWS: int := 20
  const GRID_COLS: int := 20

  /** The canvas is sized to the grid exactly. */
  const CANVAS_WIDTH: real := (GRID_COLS * GRID_CELL_SIZE) as real
  const CANVAS_HEIGHT: real := (GRID_ROWS * GRID_CELL_SIZE) as real

  datatype Cell = Cell(row: int, col: int)

  /** A position on the canvas, in pixels from its top-left corner. */
  datatype Point = Point(x: real, y: real)

  predicate InGrid(row: int, col: int) {
    0 <= row < GRID_ROWS && 0 <= col < GRID_COLS
  }

  /** The pixel lies in the cell's square, left and top edges included. */
  predicate InCell(cell: Cell, x: real, y: real) {
    (cell.col * GRID_CELL_SIZE) as real <= x < ((cell.col + 1) * GRID_CELL_SIZE) as real &&
    (cell.row * GRID_CELL_SIZE) as real <= y < ((cell.row + 1) * GRID_CELL_SIZE) as real
  }

  /**
   * The cell under a canvas pixel: the column and row are the floors of the
   * coordinates divided by the cell size, and there is a cell only when both
   * lie inside the grid.
   */
  function CellAt(x: real, y: real): (cell: Option<Cell>)
    ensures cell.Some? <==> 0.0 <= x < CANVAS_WIDTH && 0.0 <= y < CANVAS_HEIGHT
    ensures cell.Some? ==> InGrid(cell.value.row, cell.value.col) && InCell(cell.value, x, y)
  {
    var col := (x / GRID_CELL_SIZE as real).Floor;
    var row := (y / GRID_CELL_SIZE as real).Floor;
    if col >= 0 && col < GRID_COLS && row >= 0 && row < GRID_ROWS then Some(Cell(row, col)) else None
  }

  /** Every pixel of a grid cell's square is looked up as that cell. */
  lemma CellAtInverse(cell: Cell, x: real, y: real)
    requires InGrid(cell.row, cell.col) && InCell(cell, x, y)
    ensures CellAt(x, y) == Some(cell)
  {
    var col := (x / GRID_CELL_SIZE as real).Floor;
    var row := (y / GRID_CELL_SIZE as real).Floor;
    assert cell.col as real <= x / GRID_CELL_SIZE as real < cell.col as real + 1.0;
    assert cell.row as real <= y / GRID_CELL_SIZE as real < cell.row as real + 1.0;
    assert col == cell.col && row == cell.row;
  }

  /** The centre of a cell, where its arrow starts. */
  function CellCenter(cell: Cell): (p: Point)
    ensures InCell(cell, p.x, p.y)
  {
    Point((cell.col * GRID_CELL_SIZE) as real + GRID_CELL_SIZE as real / 2.0,
          (cell.row * GRID_CELL_SIZE) as real + GRID_CELL_SIZE as real / 2.0)
  }

  /** Looking up the centre of a grid cell gives back that cell. */
  lemma CellCenterRoundTrip(cell: Cell)
    requires InGrid(cell.row, cell.col)
    ensures CellAt(CellCenter(cell).x, CellCenter(cell).y) == Some(cell)
  {
    CellAtInverse(cell, CellCenter(cell).x, CellCenter(cell).y);
  }

  /** The top-left pixel is cell (0, 0); the pixel at (500, 500) is off the grid. */
  lemma CanvasCorners()
    ensures CellAt(0.0, 0.0) == Some(Cell(0, 0))
    ensures CellAt(CANVAS_WIDTH, CANVAS_HEIGHT) == None
    ensures CellAt(CANVAS_WIDTH - 1.0, CANVAS_HEIGHT - 1.0) == Some(Cell(GRID_ROWS - 1, GRID_COLS - 1))
  {
    CellAtInverse(Cell(0, 0), 0.0, 0.0);
    CellAtInverse(Cell(GRID_ROWS - 1, GRID_COLS - 1), CANVAS_WIDTH - 1.0, CANVAS_HEIGHT - 1.0);
  }
}
