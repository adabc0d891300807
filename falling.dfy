/**
 * A lone Powder under the bottom-up pass of `updateGrid` (src/main.js): each
 * pass moves it exactly one row, up to the floor, and `update` is called once
 * per pass; the frames of `loop` are two such passes.
 */
module LoneFall {
  import opened Elements
  import opened Particles
  import Powder
  import opened Passes
  import opened World

  /** p at (x, y) is the only particle on the grid. */
  ghost predicate Alone(g: seq<seq<Cell>>, x: int, y: int, p: Particle)
  {
    && InBounds(g, x, y) && g[y][x] == Occupied(p)
    && forall j, i :: 0 <= j < |g| && 0 <= i < |g[j]| && (i != x || j != y) ==> g[j][i] == Empty
  }

  /** The row the lone particle is in after one pass from row y. */
  function Below(y: nat, rows: nat): (b: nat)
  {
    if y + 1 < rows then y + 1 else y
  }

  /** Visiting empty cells changes nothing. */
  lemma {:induction false} ScanRowSkip(a: Pass, rand: Draws, r: nat, c: nat, e: nat, rows: nat, cols: nat)
    requires Wf(a.state, rows, cols) && ValidDraws(rand) && r < rows && c <= e <= cols
    requires forall i :: c <= i < e ==> a.state.cells[r][i] == Empty
    ensures ScanRow(a, rand, r, c, rows, cols) == ScanRow(a, rand, r, e, rows, cols)
    decreases e - c
  {
    if c < e {
      VisitFrame(a, rand, c, r, rows, cols);
      ScanRowSkip(a, rand, r, c + 1, e, rows, cols);
    }
  }

  /** Scanning empty rows changes nothing. */
  lemma {:induction false} BottomUpFromSkip(a: Pass, rand: Draws, n: nat, m: nat, rows: nat, cols: nat)
    requires Wf(a.state, rows, cols) && ValidDraws(rand) && m <= n <= rows
    requires forall j, i :: m <= j < n && 0 <= i < cols ==> a.state.cells[j][i] == Empty
    ensures BottomUpFrom(a, rand, n, rows, cols) == BottomUpFrom(a, rand, m, rows, cols)
    decreases n - m
  {
    if m < n {
      var n1: nat := n - 1;
      ScanRowSkip(a, rand, n1, 0, cols, rows, cols);
      assert ScanRow(a, rand, n1, 0, rows, cols) == a;
      BottomUpFromSkip(a, rand, n1, m, rows, cols);
    }
  }

  /** The visit of the lone particle: it falls one row unless it is on the floor, without a draw. */
  lemma VisitLone(a: Pass, rand: Draws, x: nat, y: nat, rows: nat, cols: nat, p: Particle) returns (b: Pass)
    requires Wf(a.state, rows, cols) && ValidDraws(rand) && Alone(a.state.cells, x, y, p) && HasUpdate(p.material)
    ensures b == Visit(a, rand, x, y, rows, cols)
    ensures Wf(b.state, rows, cols) && Alone(b.state.cells, x, Below(y, rows), p)
    ensures p.id in b.state.pos && b.state.pos[p.id] == Pos(x, Below(y, rows))
    ensures b.used == a.used && b.calls == a.calls + [p.id]
  {
    b := Visit(a, rand, x, y, rows, cols);
    var s := a.state;
    assert s.pos[p.id] == Pos(x, y);
    if y + 1 < rows {
      Powder.FallsStraight(s, p, x, y, rand(a.used));
      MoveToAccepted(s, p, x, y + 1);
    } else {
      Powder.BottomRowStays(s, p, x, y, rand(a.used));
    }
  }

  /** Scanning the lone particle's row amounts to its visit. */
  lemma ScanLoneRow(a: Pass, rand: Draws, x: nat, y: nat, rows: nat, cols: nat, p: Particle) returns (b: Pass)
    requires Wf(a.state, rows, cols) && ValidDraws(rand) && Alone(a.state.cells, x, y, p) && HasUpdate(p.material)
    ensures ScanRow(a, rand, y, 0, rows, cols) == b
    ensures Wf(b.state, rows, cols) && Alone(b.state.cells, x, Below(y, rows), p)
    ensures p.id in b.state.pos && b.state.pos[p.id] == Pos(x, Below(y, rows))
    ensures b.used == a.used && b.calls == a.calls + [p.id]
  {
    ScanRowSkip(a, rand, y, 0, x, rows, cols);
    assert ScanRow(a, rand, y, x, rows, cols) == ScanRow(Visit(a, rand, x, y, rows, cols), rand, y, x + 1, rows, cols);
    b := VisitLone(a, rand, x, y, rows, cols, p);
    ScanRowSkip(b, rand, y, x + 1, cols, rows, cols);
  }

  /**
   * One `updateGrid()` pass moves a lone Powder exactly one row down (none on
   * the floor), calls its `update` exactly once and takes no draw.
   */
  lemma BottomUpMovesLoneOneRow(s: State, rand: Draws, k: nat, rows: nat, cols: nat, x: nat, y: nat, p: Particle)
    requires Wf(s, rows, cols) && ValidDraws(rand) && Alone(s.cells, x, y, p) && HasUpdate(p.material)
    ensures var b := BottomUp(s, rand, k, rows, cols);
      && b.calls == [p.id] && b.used == k
      && Alone(b.state.cells, x, Below(y, rows), p)
      && p.id in b.state.pos && b.state.pos[p.id] == Pos(x, Below(y, rows))
  {
    var b := LoneRowAndBelow(s, rand, k, rows, cols, x, y, p);
    BottomUpFromSkip(b, rand, y, 0, rows, cols);
    assert BottomUpFrom(b, rand, 0, rows, cols) == b;
  }

  /** The rows from the floor up to the lone particle's row, scanned. */
  lemma LoneRowAndBelow(s: State, rand: Draws, k: nat, rows: nat, cols: nat, x: nat, y: nat, p: Particle) returns (b: Pass)
    requires Wf(s, rows, cols) && ValidDraws(rand) && Alone(s.cells, x, y, p) && HasUpdate(p.material)
    ensures y < rows && Wf(b.state, rows, cols) && Alone(b.state.cells, x, Below(y, rows), p)
    ensures BottomUp(s, rand, k, rows, cols) == BottomUpFrom(b, rand, y, rows, cols)
    ensures p.id in b.state.pos && b.state.pos[p.id] == Pos(x, Below(y, rows))
    ensures b.used == k && b.calls == [p.id]
  {
    var a0 := Pass(s, k, []);
    BottomUpFromSkip(a0, rand, rows, y + 1, rows, cols);
    b := ScanLoneRow(a0, rand, x, y, rows, cols, p);
    assert BottomUpFrom(a0, rand, y + 1, rows, cols) == BottomUpFrom(b, rand, y, rows, cols);
  }

  /** The row a lone Powder that started in row y is in after n passes. */
  function RowAfter(y: nat, n: nat, rows: nat): (r: nat)
    requires y < rows
  {
    if y + n < rows then y + n else rows - 1
  }

  /** After n passes a lone Powder that started in row y is in row min(y + n, rows - 1). */
  lemma {:induction false} TicksMoveLone(s: State, rand: Draws, k: nat, n: nat, rows: nat, cols: nat, x: nat, y: nat, p: Particle)
    requires Wf(s, rows, cols) && ValidDraws(rand) && Alone(s.cells, x, y, p) && HasUpdate(p.material)
    ensures var b := Ticks(s, rand, k, n, rows, cols).state;
      Alone(b.cells, x, RowAfter(y, n, rows), p) && p.id in b.pos && b.pos[p.id] == Pos(x, RowAfter(y, n, rows))
    decreases n, 1
  {
    if n == 0 {
      assert Ticks(s, rand, k, n, rows, cols) == Pass(s, k, []);
      assert s.pos[p.id] == Pos(x, y);
    } else {
      var a := BottomUp(s, rand, k, rows, cols);
      BottomUpMovesLoneOneRow(s, rand, k, rows, cols, x, y, p);
      TicksMoveLoneStep(s, a, rand, k, n, rows, cols, x, y, p);
    }
  }

  lemma {:induction false} TicksMoveLoneStep(s: State, a: Pass, rand: Draws, k: nat, n: nat, rows: nat, cols: nat, x: nat, y: nat, p: Particle)
    requires Wf(s, rows, cols) && ValidDraws(rand) && 0 < n && HasUpdate(p.material)
    requires a == BottomUp(s, rand, k, rows, cols) && Alone(a.state.cells, x, Below(y, rows), p)
    ensures var b := Ticks(s, rand, k, n, rows, cols).state;
      Alone(b.cells, x, RowAfter(y, n, rows), p) && p.id in b.pos && b.pos[p.id] == Pos(x, RowAfter(y, n, rows))
    decreases n - 1, 2
  {
    TicksMoveLone(a.state, rand, a.used, n - 1, rows, cols, x, Below(y, rows), p);
    assert RowAfter(Below(y, rows), n - 1, rows) == RowAfter(y, n, rows);
  }

  /** A Sand created alone in the top row of a blank grid is in row min(n, rows - 1) after n passes. */
  lemma CreatedSandFalls(rand: Draws, rows: nat, cols: nat, x: nat, n: nat)
    requires ValidDraws(rand) && 0 < rows && x < cols
    ensures var s := Create(Blank(rows, cols), Sand, x, 0);
      && Wf(s, rows, cols)
      && var b := Ticks(s, rand, 0, n, rows, cols).state;
      && b.cells[RowAfter(0, n, rows)][x] == Occupied(Particle(0, Sand))
      && 0 in b.pos && b.pos[0] == Pos(x, RowAfter(0, n, rows))
  {
    var s := Create(Blank(rows, cols), Sand, x, 0);
    CreatePreserves(Blank(rows, cols), Sand, x, 0, rows, cols);
    assert Alone(s.cells, x, 0, Particle(0, Sand));
    TicksMoveLone(s, rand, 0, n, rows, cols, x, 0, Particle(0, Sand));
  }

  /**
   * The end-to-end scenario on a 5 x 5 grid: a Sand created at (2, 0) is at
   * (2, 1) after one pass, reaches the floor (2, 4) after four, and does not
   * move on the fifth.
   */
  lemma SandReachesFloorOfFiveByFive(rand: Draws)
    requires ValidDraws(rand)
    ensures var s := Create(Blank(5, 5), Sand, 2, 0);
      && Wf(s, 5, 5)
      && 0 in Ticks(s, rand, 0, 1, 5, 5).state.pos && Ticks(s, rand, 0, 1, 5, 5).state.pos[0] == Pos(2, 1)
      && 0 in Ticks(s, rand, 0, 4, 5, 5).state.pos && Ticks(s, rand, 0, 4, 5, 5).state.pos[0] == Pos(2, 4)
      && Ticks(s, rand, 0, 4, 5, 5).state.cells[4][2] == Occupied(Particle(0, Sand))
      && 0 in Ticks(s, rand, 0, 5, 5, 5).state.pos && Ticks(s, rand, 0, 5, 5, 5).state.pos[0] == Pos(2, 4)
      && Ticks(s, rand, 0, 5, 5, 5).state.cells[4][2] == Occupied(Particle(0, Sand))
  {
    CreatedSandFalls(rand, 5, 5, 2, 1);
    CreatedSandFalls(rand, 5, 5, 2, 4);
    CreatedSandFalls(rand, 5, 5, 2, 5);
  }
}
