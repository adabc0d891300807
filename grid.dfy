/**
 * The `Grid` class of src/core/Grid.ts as an object updated in place: the
 * constructor builds the all-`null` grid and `update` runs the top-down pass.
 * The grid also owns the `x`/`y` fields of its particles (`pos`), so that the
 * particle methods `move_to` (src/engine/Particle.ts) and the Powder `update`
 * (src/engine/Powder.ts) are methods here that change those fields.
 */
module Grid {
  import opened Elements
  import opened Particles
  import Powder
  import opened Passes
  import opened World

  class Grid {
    const width: nat
    const height: nat
    const pixelSize: nat
    const rows: nat
    const cols: nat
    var cells: seq<seq<Cell>>
    var pos: map<Pid, Pos>
    var next: Pid

    /** The state the pure model works on. */
    ghost function Contents(): State
      reads this
    {
      State(cells, pos, next)
    }

    ghost predicate Valid()
      reads this
    {
      Wf(Contents(), rows, cols)
    }

    /**
     * `new Grid(canvas, width, height, pixelSize)`: `ROWS = height / pixelSize`
     * rows of `COLS = width / pixelSize` cells, every one `null`.
     */
    constructor (width: nat, height: nat, pixelSize: nat)
      requires 0 < pixelSize && width % pixelSize == 0 && height % pixelSize == 0
      ensures this.width == width && this.height == height && this.pixelSize == pixelSize
      ensures rows * pixelSize == height && cols * pixelSize == width
      ensures Contents() == Blank(rows, cols) && Valid()
    {
      this.width := width;
      this.height := height;
      this.pixelSize := pixelSize;
      cols := width / pixelSize;
      rows := height / pixelSize;
      cells := seq(height / pixelSize, _ => seq(width / pixelSize, _ => Empty));
      pos := map[];
      next := 0;
    }

    /**
     * `p.move_to(grid, nx, ny)`: when (nx, ny) is in bounds and `null`, clear
     * p's cell, set its `x`/`y`, and store it at (nx, ny).
     */
    method MoveTo(p: Particle, nx: int, ny: int)
      requires p.id in pos && InBounds(cells, pos[p.id].x, pos[p.id].y)
      modifies this
      ensures Contents() == Particles.MoveTo(old(Contents()), p, nx, ny)
    {
      if InBounds(cells, nx, ny) && cells[ny][nx] == Empty {
        var o := pos[p.id];
        cells := cells[o.y := cells[o.y][o.x := Empty]];
        pos := pos[p.id := Pos(nx, ny)];
        cells := cells[ny := cells[ny][nx := Occupied(p)]];
      }
    }

    /**
     * The Powder `update(grid)` of p: fall straight down when that cell is
     * free, otherwise collect the free diagonals and move to one of them,
     * chosen with the draw `rand(k)`. Returns the number of draws taken so far.
     */
    method PowderUpdate(p: Particle, rand: Draws, k: nat) returns (k2: nat)
      requires p.id in pos && InBounds(cells, pos[p.id].x, pos[p.id].y) && ValidDraws(rand)
      modifies this
      ensures Contents() == Powder.Update(old(Contents()), p, rand(k))
      ensures k2 == k + if Powder.DrawsRandom(old(cells), old(pos[p.id].x), old(pos[p.id].y)) then 1 else 0
    {
      ghost var s0 := Contents();
      var x := pos[p.id].x;
      var y := pos[p.id].y;
      k2 := k;
      if InBounds(cells, x, y + 1) && cells[y + 1][x] == Empty {
        Powder.FallsStraight(s0, p, x, y, rand(k));
        MoveTo(p, x, y + 1);
      } else {
        var directions: seq<int> := [];
        if InBounds(cells, x - 1, y + 1) && cells[y + 1][x - 1] == Empty {
          directions := directions + [-1];
        }
        if InBounds(cells, x + 1, y + 1) && cells[y + 1][x + 1] == Empty {
          directions := directions + [1];
        }
        assert directions == Powder.Diagonals(s0.cells, x, y);
        if |directions| > 0 {
          Powder.Slides(s0, p, x, y, rand(k));
          var dx := directions[Powder.ChoiceIndex(rand(k), |directions|)];
          k2 := k + 1;
          MoveTo(p, x + dx, y + 1);
        } else {
          Powder.StaysWhenBlocked(s0, p, x, y, rand(k));
        }
      }
    }

    /**
     * The body of both passes at cell (x, y): call `update` when the cell
     * holds a particle that has one. Returns the draws taken and, as ghost
     * output, the calls so far.
     */
    method VisitCell(x: nat, y: nat, rand: Draws, k: nat, ghost calls: seq<Pid>) returns (k2: nat, ghost calls2: seq<Pid>)
      requires Valid() && ValidDraws(rand) && y < rows && x < cols
      modifies this
      ensures Valid()
      ensures Pass(Contents(), k2, calls2) == Visit(Pass(old(Contents()), k, calls), rand, x, y, rows, cols)
    {
      k2, calls2 := k, calls;
      var cell := cells[y][x];
      if cell.Occupied? && HasUpdate(cell.particle.material) {
        Powder.UpdateConsistent(Contents(), cell.particle, x, y, rand(k));
        k2 := PowderUpdate(cell.particle, rand, k);
        calls2 := calls + [cell.particle.id];
      }
    }

    /**
     * The inner loop of both passes over row y: cells 0 to COLS-1, left to
     * right.
     */
    method ScanCells(y: nat, rand: Draws, k: nat, ghost calls: seq<Pid>) returns (k2: nat, ghost calls2: seq<Pid>)
      requires Valid() && ValidDraws(rand) && y < rows
      modifies this
      ensures Valid()
      ensures Pass(Contents(), k2, calls2) == ScanRow(Pass(old(Contents()), k, calls), rand, y, 0, rows, cols)
    {
      ghost var start := Pass(Contents(), k, calls);
      k2, calls2 := k, calls;
      var x := 0;
      while x < cols
        invariant x <= cols && Valid()
        invariant ScanRow(Pass(Contents(), k2, calls2), rand, y, x, rows, cols) == ScanRow(start, rand, y, 0, rows, cols)
      {
        k2, calls2 := VisitCell(x, y, rand, k2, calls2);
        x := x + 1;
      }
    }

    /**
     * `update()`: rows 0 to ROWS-1, each left to right, calling `update` on
     * every cell whose particle has one. Returns the draws taken and, as ghost
     * output, the particles whose `update` was called, in order.
     */
    method Update(rand: Draws, k: nat) returns (k2: nat, ghost calls: seq<Pid>)
      requires Valid() && ValidDraws(rand)
      modifies this
      ensures Valid()
      ensures Pass(Contents(), k2, calls) == TopDown(old(Contents()), rand, k, rows, cols)
    {
      ghost var goal := TopDown(Contents(), rand, k, rows, cols);
      k2 := k;
      calls := [];
      var y := 0;
      while y < rows
        invariant y <= rows && Valid()
        invariant TopDownFrom(Pass(Contents(), k2, calls), rand, y, rows, cols) == goal
      {
        k2, calls := ScanCells(y, rand, k2, calls);
        y := y + 1;
      }
    }
  }
}
