/**
 * The whole-grid passes: the top-down pass of `Grid.update`
 * (src/core/Grid.ts) and the bottom-up pass of `updateGrid` (src/main.js).
 * Both scan each row left to right and call `update` on every visited cell
 * whose particle has one; they differ only in the order of the rows.
 */
module Passes {
  import opened Elements
  import opened Particles
  import Powder

  /** The successive results of `Math.random()`, indexed by call number. */
  type Draws = nat -> real

  ghost predicate ValidDraws(rand: Draws)
  {
    forall i :: 0.0 <= rand(i) < 1.0
  }

  /**
   * Progress of a pass: the state, how many draws have been taken from the
   * stream, and the identities of the particles whose `update` was called, in
   * call order.
   */
  datatype Pass = Pass(state: State, used: nat, calls: seq<Pid>)

  /** Visiting cell (x, y): call `update` when it holds a particle that has one. */
  ghost function Visit(a: Pass, rand: Draws, x: nat, y: nat, rows: nat, cols: nat): (b: Pass)
    requires Wf(a.state, rows, cols) && ValidDraws(rand) && y < rows && x < cols
    ensures Wf(b.state, rows, cols)
  {
    var c := a.state.cells[y][x];
    if c.Occupied? && HasUpdate(c.particle.material) then
      Powder.UpdateConsistent(a.state, c.particle, x, y, rand(a.used));
      Pass(Powder.Update(a.state, c.particle, rand(a.used)),
           a.used + (if Powder.DrawsRandom(a.state.cells, x, y) then 1 else 0),
           a.calls + [c.particle.id])
    else
      a
  }

  /** The inner loop: visit columns x, x+1, ..., cols-1 of row y. */
  ghost function ScanRow(a: Pass, rand: Draws, y: nat, x: nat, rows: nat, cols: nat): (b: Pass)
    requires Wf(a.state, rows, cols) && ValidDraws(rand) && y < rows && x <= cols
    ensures Wf(b.state, rows, cols)
    decreases cols - x
  {
    if x == cols then a
    else ScanRow(Visit(a, rand, x, y, rows, cols), rand, y, x + 1, rows, cols)
  }

  /** `Grid.update` from row y on: rows y, y+1, ..., rows-1. */
  ghost function TopDownFrom(a: Pass, rand: Draws, y: nat, rows: nat, cols: nat): (b: Pass)
    requires Wf(a.state, rows, cols) && ValidDraws(rand) && y <= rows
    ensures Wf(b.state, rows, cols)
    decreases rows - y
  {
    if y == rows then a
    else TopDownFrom(ScanRow(a, rand, y, 0, rows, cols), rand, y + 1, rows, cols)
  }

  /** One `Grid.update()` pass, starting with draw number k. */
  ghost function TopDown(s: State, rand: Draws, k: nat, rows: nat, cols: nat): (b: Pass)
    requires Wf(s, rows, cols) && ValidDraws(rand)
    ensures Wf(b.state, rows, cols)
  {
    TopDownFrom(Pass(s, k, []), rand, 0, rows, cols)
  }

  /** `updateGrid` with rows n-1, n-2, ..., 0 still to scan. */
  ghost function BottomUpFrom(a: Pass, rand: Draws, n: nat, rows: nat, cols: nat): (b: Pass)
    requires Wf(a.state, rows, cols) && ValidDraws(rand) && n <= rows
    ensures Wf(b.state, rows, cols)
    decreases n
  {
    if n == 0 then a
    else BottomUpFrom(ScanRow(a, rand, n - 1, 0, rows, cols), rand, n - 1, rows, cols)
  }

  /** One `updateGrid()` pass, starting with draw number k. */
  ghost function BottomUp(s: State, rand: Draws, k: nat, rows: nat, cols: nat): (b: Pass)
    requires Wf(s, rows, cols) && ValidDraws(rand)
    ensures Wf(b.state, rows, cols)
  {
    BottomUpFrom(Pass(s, k, []), rand, rows, rows, cols)
  }

  /**
   * n successive `updateGrid()` passes from state s, starting with draw number
   * k; `loop` runs two per frame. The calls are those of the last pass.
   */
  ghost function Ticks(s: State, rand: Draws, k: nat, n: nat, rows: nat, cols: nat): (b: Pass)
    requires Wf(s, rows, cols) && ValidDraws(rand)
    ensures Wf(b.state, rows, cols)
    decreases n
  {
    if n == 0 then Pass(s, k, [])
    else
      var a := BottomUp(s, rand, k, rows, cols);
      Ticks(a.state, rand, a.used, n - 1, rows, cols)
  }

  // ---------------------------------------------------------------------------
  // What one visit may change
  // ---------------------------------------------------------------------------

  /**
   * A visit to (x, y) changes no cell other than (x, y) except an empty cell of
   * row y+1, and a visit to a cell without an updatable particle changes nothing.
   */
  lemma VisitFrame(a: Pass, rand: Draws, x: nat, y: nat, rows: nat, cols: nat)
    requires Wf(a.state, rows, cols) && ValidDraws(rand) && y < rows && x < cols
    ensures var b := Visit(a, rand, x, y, rows, cols);
      forall j, i :: 0 <= j < rows && 0 <= i < cols && (i != x || j != y) ==>
        b.state.cells[j][i] == a.state.cells[j][i] || (a.state.cells[j][i] == Empty && j == y + 1)
    ensures var c := a.state.cells[y][x];
      !(c.Occupied? && HasUpdate(c.particle.material)) ==> Visit(a, rand, x, y, rows, cols) == a
  {
  }

  /** A cell holding a particle without `update` is unchanged by a visit anywhere. */
  lemma VisitKeepsSolid(a: Pass, rand: Draws, x: nat, y: nat, rows: nat, cols: nat, i: int, j: int, q: Particle)
    requires Wf(a.state, rows, cols) && ValidDraws(rand) && y < rows && x < cols
    requires 0 <= j < rows && 0 <= i < cols && a.state.cells[j][i] == Occupied(q) && !HasUpdate(q.material)
    ensures Visit(a, rand, x, y, rows, cols).state.cells[j][i] == Occupied(q)
  {
    VisitFrame(a, rand, x, y, rows, cols);
  }

  lemma {:induction false} ScanRowKeepsSolid(a: Pass, rand: Draws, y: nat, x: nat, rows: nat, cols: nat, i: int, j: int, q: Particle)
    requires Wf(a.state, rows, cols) && ValidDraws(rand) && y < rows && x <= cols
    requires 0 <= j < rows && 0 <= i < cols && a.state.cells[j][i] == Occupied(q) && !HasUpdate(q.material)
    ensures ScanRow(a, rand, y, x, rows, cols).state.cells[j][i] == Occupied(q)
    decreases cols - x
  {
    if x < cols {
      VisitKeepsSolid(a, rand, x, y, rows, cols, i, j, q);
      ScanRowKeepsSolid(Visit(a, rand, x, y, rows, cols), rand, y, x + 1, rows, cols, i, j, q);
    }
  }

  lemma {:induction false} TopDownFromKeepsSolid(a: Pass, rand: Draws, y: nat, rows: nat, cols: nat, i: int, j: int, q: Particle)
    requires Wf(a.state, rows, cols) && ValidDraws(rand) && y <= rows
    requires 0 <= j < rows && 0 <= i < cols && a.state.cells[j][i] == Occupied(q) && !HasUpdate(q.material)
    ensures TopDownFrom(a, rand, y, rows, cols).state.cells[j][i] == Occupied(q)
    decreases rows - y
  {
    if y < rows {
      ScanRowKeepsSolid(a, rand, y, 0, rows, cols, i, j, q);
      TopDownFromKeepsSolid(ScanRow(a, rand, y, 0, rows, cols), rand, y + 1, rows, cols, i, j, q);
    }
  }

  lemma {:induction false} BottomUpFromKeepsSolid(a: Pass, rand: Draws, n: nat, rows: nat, cols: nat, i: int, j: int, q: Particle)
    requires Wf(a.state, rows, cols) && ValidDraws(rand) && n <= rows
    requires 0 <= j < rows && 0 <= i < cols && a.state.cells[j][i] == Occupied(q) && !HasUpdate(q.material)
    ensures BottomUpFrom(a, rand, n, rows, cols).state.cells[j][i] == Occupied(q)
    decreases n, 1
  {
    if n > 0 {
      var m: nat := n - 1;
      ScanRowKeepsSolid(a, rand, m, 0, rows, cols, i, j, q);
      BottomUpFromKeepsSolidStep(a, ScanRow(a, rand, m, 0, rows, cols), rand, n, rows, cols, i, j, q);
    }
  }

  lemma {:induction false} BottomUpFromKeepsSolidStep(a: Pass, b: Pass, rand: Draws, n: nat, rows: nat, cols: nat, i: int, j: int, q: Particle)
    requires Wf(a.state, rows, cols) && ValidDraws(rand) && 0 < n <= rows
    requires b == ScanRow(a, rand, n - 1, 0, rows, cols)
    requires 0 <= j < rows && 0 <= i < cols && b.state.cells[j][i] == Occupied(q) && !HasUpdate(q.material)
    ensures BottomUpFrom(a, rand, n, rows, cols).state.cells[j][i] == Occupied(q)
    decreases n, 0
  {
    var m: nat := n - 1;
    BottomUpFromKeepsSolid(b, rand, m, rows, cols, i, j, q);
  }

  /** `Grid.update` leaves a Cobble (or any particle without `update`) in its cell, with its position. */
  lemma TopDownKeepsSolid(s: State, rand: Draws, k: nat, rows: nat, cols: nat, i: int, j: int, q: Particle)
    requires Wf(s, rows, cols) && ValidDraws(rand)
    requires 0 <= j < rows && 0 <= i < cols && s.cells[j][i] == Occupied(q) && !HasUpdate(q.material)
    ensures var b := TopDown(s, rand, k, rows, cols).state;
      b.cells[j][i] == Occupied(q) && q.id in b.pos && b.pos[q.id] == Pos(i, j)
  {
    TopDownFromKeepsSolid(Pass(s, k, []), rand, 0, rows, cols, i, j, q);
  }

  /** Any number of `updateGrid` passes leave a Cobble in its cell, with its position. */
  lemma TicksKeepSolid(s: State, rand: Draws, k: nat, n: nat, rows: nat, cols: nat, i: int, j: int, q: Particle)
    requires Wf(s, rows, cols) && ValidDraws(rand)
    requires 0 <= j < rows && 0 <= i < cols && s.cells[j][i] == Occupied(q) && !HasUpdate(q.material)
    ensures var b := Ticks(s, rand, k, n, rows, cols).state;
      b.cells[j][i] == Occupied(q) && q.id in b.pos && b.pos[q.id] == Pos(i, j)
  {
    TicksKeepCell(s, rand, k, n, rows, cols, i, j, q);
  }

  lemma {:induction false} TicksKeepCell(s: State, rand: Draws, k: nat, n: nat, rows: nat, cols: nat, i: int, j: int, q: Particle)
    requires Wf(s, rows, cols) && ValidDraws(rand)
    requires 0 <= j < rows && 0 <= i < cols && s.cells[j][i] == Occupied(q) && !HasUpdate(q.material)
    ensures Ticks(s, rand, k, n, rows, cols).state.cells[j][i] == Occupied(q)
    decreases n, 1
  {
    if n > 0 {
      BottomUpFromKeepsSolid(Pass(s, k, []), rand, rows, rows, cols, i, j, q);
      TicksKeepCellStep(s, BottomUp(s, rand, k, rows, cols), rand, k, n, rows, cols, i, j, q);
    }
  }

  lemma {:induction false} TicksKeepCellStep(s: State, a: Pass, rand: Draws, k: nat, n: nat, rows: nat, cols: nat, i: int, j: int, q: Particle)
    requires Wf(s, rows, cols) && ValidDraws(rand) && 0 < n
    requires a == BottomUp(s, rand, k, rows, cols)
    requires 0 <= j < rows && 0 <= i < cols && a.state.cells[j][i] == Occupied(q) && !HasUpdate(q.material)
    ensures Ticks(s, rand, k, n, rows, cols).state.cells[j][i] == Occupied(q)
    decreases n, 0
  {
    TicksKeepCell(a.state, rand, a.used, n - 1, rows, cols, i, j, q);
  }
}
