/**
 * The simulation driver of src/main.js: a 512 x 512 canvas of 4-pixel cells,
 * the bottom-up `updateGrid` pass, `createParticle`, which places a Sand, and
 * the two passes that each frame of `loop` runs before drawing.
 */
module App {
  import opened Elements
  import opened Particles
  import opened Passes
  import opened World
  import opened Grid

  const WIDTH: nat := 512
  const HEIGHT: nat := 512
  const PIXEL_SIZE: nat := 4
  const ROWS: nat := HEIGHT / PIXEL_SIZE
  const COLS: nat := WIDTH / PIXEL_SIZE

  /** The module-level grid: ROWS arrays of COLS `null`s, that is 128 x 128. */
  method Setup() returns (g: Grid)
    ensures fresh(g) && g.Valid()
    ensures g.rows == ROWS == 128 && g.cols == COLS == 128
    ensures g.Contents() == Blank(ROWS, COLS)
  {
    g := new Grid(WIDTH, HEIGHT, PIXEL_SIZE);
  }

  /**
   * `updateGrid()`: rows ROWS-1 down to 0, each left to right, calling
   * `update` on every cell whose particle has one. Returns the draws taken
   * and, as ghost output, the particles whose `update` was called, in order.
   */
  method UpdateGrid(g: Grid, rand: Draws, k: nat) returns (k2: nat, ghost calls: seq<Pid>)
    requires g.Valid() && ValidDraws(rand)
    modifies g
    ensures g.Valid()
    ensures Pass(g.Contents(), k2, calls) == BottomUp(old(g.Contents()), rand, k, g.rows, g.cols)
  {
    ghost var goal := BottomUp(g.Contents(), rand, k, g.rows, g.cols);
    k2 := k;
    calls := [];
    var y: int := g.rows - 1;
    while y >= 0
      invariant -1 <= y < g.rows && g.Valid()
      invariant BottomUpFrom(Pass(g.Contents(), k2, calls), rand, y + 1, g.rows, g.cols) == goal
    {
      k2, calls := g.ScanCells(y, rand, k2, calls);
      y := y - 1;
    }
  }

  /** `createParticle(x, y)`: `grid[y][x] = new Sand(x, y)`. */
  method CreateParticle(g: Grid, x: int, y: int)
    requires g.Valid() && InBounds(g.cells, x, y)
    modifies g
    ensures g.Valid()
    ensures g.Contents() == Create(old(g.Contents()), Sand, x, y)
  {
    CreatePreserves(g.Contents(), Sand, x, y, g.rows, g.cols);
    g.cells := g.cells[y := g.cells[y][x := Occupied(Particle(g.next, Sand))]];
    g.pos := g.pos[g.next := Pos(x, y)];
    g.next := g.next + 1;
  }

  /** One frame of `loop()`: two `updateGrid()` passes (drawing is not modelled). */
  method Frame(g: Grid, rand: Draws, k: nat) returns (k2: nat)
    requires g.Valid() && ValidDraws(rand)
    modifies g
    ensures g.Valid()
    ensures var b := Ticks(old(g.Contents()), rand, k, 2, g.rows, g.cols);
      g.Contents() == b.state && k2 == b.used
  {
    ghost var s0 := g.Contents();
    var k1, calls1 := UpdateGrid(g, rand, k);
    ghost var s1 := g.Contents();
    ghost var calls2;
    k2, calls2 := UpdateGrid(g, rand, k1);
    assert Ticks(g.Contents(), rand, k2, 0, g.rows, g.cols) == Pass(g.Contents(), k2, []);
    assert Ticks(s1, rand, k1, 1, g.rows, g.cols) == Ticks(g.Contents(), rand, k2, 0, g.rows, g.cols);
    assert Ticks(s0, rand, k, 2, g.rows, g.cols) == Ticks(s1, rand, k1, 1, g.rows, g.cols);
  }
}
