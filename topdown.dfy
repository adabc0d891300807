/**
 * A guarantee of the top-down pass of `Grid.update` (src/core/Grid.ts): since
 * a Powder moved into row y+1 is met again when the scan reaches that row, a
 * Powder with only empty rows below it falls all the way to the bottom row in
 * a single pass.
 */
module TopDownFacts {
  import opened Elements
  import opened Particles
  import Powder
  import opened Passes

  /** Every cell below row y is empty. */
  ghost predicate EmptyBelow(g: seq<seq<Cell>>, y: int)
  {
    forall j, i :: 0 <= j < |g| && y < j && 0 <= i < |g[j]| ==> g[j][i] == Empty
  }

  /**
   * Scanning row r changes no other row except by filling empty cells of row
   * r+1.
   */
  lemma {:induction false} ScanRowFrame(a: Pass, rand: Draws, r: nat, x: nat, rows: nat, cols: nat)
    requires Wf(a.state, rows, cols) && ValidDraws(rand) && r < rows && x <= cols
    ensures var b := ScanRow(a, rand, r, x, rows, cols);
      forall j, i :: 0 <= j < rows && 0 <= i < cols && j != r ==>
        b.state.cells[j][i] == a.state.cells[j][i] || (a.state.cells[j][i] == Empty && j == r + 1)
    decreases cols - x
  {
    if x < cols {
      var b1 := Visit(a, rand, x, r, rows, cols);
      VisitFrame(a, rand, x, r, rows, cols);
      ScanRowFrame(b1, rand, r, x + 1, rows, cols);
      assert ScanRow(a, rand, r, x, rows, cols) == ScanRow(b1, rand, r, x + 1, rows, cols);
    }
  }

  /** In the bottom row no Powder can move, so scanning it leaves the state as it is. */
  lemma {:induction false} ScanBottomRow(a: Pass, rand: Draws, x: nat, rows: nat, cols: nat)
    requires Wf(a.state, rows, cols) && ValidDraws(rand) && 0 < rows && x <= cols
    ensures ScanRow(a, rand, rows - 1, x, rows, cols).state == a.state
    decreases cols - x
  {
    if x < cols {
      var b1 := Visit(a, rand, x, rows - 1, rows, cols);
      var c := a.state.cells[rows - 1][x];
      if c.Occupied? && HasUpdate(c.particle.material) {
        Powder.BottomRowStays(a.state, c.particle, x, rows - 1, rand(a.used));
      }
      assert b1.state == a.state;
      ScanBottomRow(b1, rand, x + 1, rows, cols);
      assert ScanRow(a, rand, rows - 1, x, rows, cols) == ScanRow(b1, rand, rows - 1, x + 1, rows, cols);
    }
  }

  /** Every cell of the row from column x on is empty. */
  ghost predicate EmptyFrom(row: seq<Cell>, x: nat)
  {
    forall i :: x <= i < |row| ==> row[i] == Empty
  }

  /**
   * The invariant of scanning row r while p falls from (px, r): the rows below
   * r+1 are empty, the cells of row r+1 from column x on are empty, and p is
   * at (px, r) until column px has been visited and at (px, r+1) afterwards.
   */
  ghost predicate FallInv(g: seq<seq<Cell>>, r: nat, x: nat, px: nat, p: Particle)
  {
    && r + 1 < |g| && px < |g[r]| && px < |g[r + 1]|
    && EmptyBelow(g, r + 1)
    && EmptyFrom(g[r + 1], x)
    && Holds(g, r, x, px, p)
  }

  /** p is at (px, r) until column px has been visited, and at (px, r+1) afterwards. */
  ghost predicate Holds(g: seq<seq<Cell>>, r: nat, x: nat, px: nat, p: Particle)
    requires r + 1 < |g| && px < |g[r]| && px < |g[r + 1]|
  {
    if x <= px then g[r][px] == Occupied(p) else g[r + 1][px] == Occupied(p)
  }

  lemma VisitFallInv(a: Pass, rand: Draws, x: nat, r: nat, rows: nat, cols: nat, px: nat, p: Particle)
    requires Wf(a.state, rows, cols) && ValidDraws(rand) && r < rows && x < cols
    requires FallInv(a.state.cells, r, x, px, p) && HasUpdate(p.material)
    ensures FallInv(Visit(a, rand, x, r, rows, cols).state.cells, r, x + 1, px, p)
  {
    var c := a.state.cells[r][x];
    if c.Occupied? && HasUpdate(c.particle.material) {
      var q := c.particle;
      var s := a.state;
      assert s.pos[q.id] == Pos(x, r);
      assert IsFree(s.cells, x, r + 1);
      Powder.FallsStraight(s, q, x, r, rand(a.used));
      MoveToAccepted(s, q, x, r + 1);
      var t := Visit(a, rand, x, r, rows, cols).state;
      assert t == MoveTo(s, q, x, r + 1);
      assert x == px ==> q == p;
      forall j, i | r + 1 < j < |t.cells| && 0 <= i < |t.cells[j]|
        ensures t.cells[j][i] == Empty
      {
        assert t.cells[j][i] == s.cells[j][i];
      }
    } else {
      VisitFrame(a, rand, x, r, rows, cols);
    }
  }

  /** One visit of the scan keeps FallInv. */
  lemma StepFallInv(a: Pass, rand: Draws, r: nat, x: nat, rows: nat, cols: nat, px: nat, p: Particle) returns (b1: Pass)
    requires Wf(a.state, rows, cols) && ValidDraws(rand) && r < rows && x < cols
    requires FallInv(a.state.cells, r, x, px, p) && HasUpdate(p.material)
    ensures Wf(b1.state, rows, cols) && FallInv(b1.state.cells, r, x + 1, px, p)
    ensures ScanRow(a, rand, r, x, rows, cols) == ScanRow(b1, rand, r, x + 1, rows, cols)
  {
    b1 := Visit(a, rand, x, r, rows, cols);
    VisitFallInv(a, rand, x, r, rows, cols, px, p);
  }

  /** Scanning row r leaves the rows below r+1, and all of row r+1, empty. */
  lemma {:induction false} ScanRowEmpties(a: Pass, rand: Draws, r: nat, x: nat, rows: nat, cols: nat, px: nat, p: Particle)
    requires Wf(a.state, rows, cols) && ValidDraws(rand) && r < rows && x <= cols
    requires FallInv(a.state.cells, r, x, px, p) && HasUpdate(p.material)
    ensures var g := ScanRow(a, rand, r, x, rows, cols).state.cells;
      EmptyBelow(g, r + 1) && EmptyFrom(g[r + 1], cols)
    decreases cols - x, 1
  {
    if x < cols {
      ScanRowEmptiesStep(a, rand, r, x, rows, cols, px, p);
    }
  }

  lemma {:induction false} ScanRowEmptiesStep(a: Pass, rand: Draws, r: nat, x: nat, rows: nat, cols: nat, px: nat, p: Particle)
    requires Wf(a.state, rows, cols) && ValidDraws(rand) && r < rows && x < cols
    requires FallInv(a.state.cells, r, x, px, p) && HasUpdate(p.material)
    ensures var g := ScanRow(a, rand, r, x, rows, cols).state.cells;
      EmptyBelow(g, r + 1) && EmptyFrom(g[r + 1], cols)
    decreases cols - x, 0
  {
    var b1 := StepFallInv(a, rand, r, x, rows, cols, px, p);
    ScanRowEmpties(b1, rand, r, x + 1, rows, cols, px, p);
  }

  lemma {:induction false} ScanRowHolds(a: Pass, rand: Draws, r: nat, x: nat, rows: nat, cols: nat, px: nat, p: Particle)
    requires Wf(a.state, rows, cols) && ValidDraws(rand) && r < rows && x <= cols
    requires FallInv(a.state.cells, r, x, px, p) && HasUpdate(p.material)
    ensures ScanRow(a, rand, r, x, rows, cols).state.cells[r + 1][px] == Occupied(p)
    decreases cols - x, 1
  {
    if x < cols {
      ScanRowHoldsStep(a, rand, r, x, rows, cols, px, p);
    }
  }

  lemma {:induction false} ScanRowHoldsStep(a: Pass, rand: Draws, r: nat, x: nat, rows: nat, cols: nat, px: nat, p: Particle)
    requires Wf(a.state, rows, cols) && ValidDraws(rand) && r < rows && x < cols
    requires FallInv(a.state.cells, r, x, px, p) && HasUpdate(p.material)
    ensures ScanRow(a, rand, r, x, rows, cols).state.cells[r + 1][px] == Occupied(p)
    decreases cols - x, 0
  {
    var b1 := StepFallInv(a, rand, r, x, rows, cols, px, p);
    ScanRowHolds(b1, rand, r, x + 1, rows, cols, px, p);
  }

  /** From row r on, with p at (px, r) and nothing below, p ends in the bottom row. */
  lemma {:induction false} FallsToFloor(a: Pass, rand: Draws, r: nat, rows: nat, cols: nat, px: nat, p: Particle)
    requires Wf(a.state, rows, cols) && ValidDraws(rand) && r < rows && px < cols
    requires a.state.cells[r][px] == Occupied(p) && HasUpdate(p.material) && EmptyBelow(a.state.cells, r)
    ensures TopDownFrom(a, rand, r, rows, cols).state.cells[rows - 1][px] == Occupied(p)
    decreases rows - r
  {
    var b := ScanRow(a, rand, r, 0, rows, cols);
    assert TopDownFrom(a, rand, r, rows, cols) == TopDownFrom(b, rand, r + 1, rows, cols);
    if r == rows - 1 {
      ScanBottomRow(a, rand, 0, rows, cols);
      assert TopDownFrom(b, rand, r + 1, rows, cols) == b;
    } else {
      assert FallInv(a.state.cells, r, 0, px, p);
      ScanRowEmpties(a, rand, r, 0, rows, cols, px, p);
      ScanRowHolds(a, rand, r, 0, rows, cols, px, p);
      FallsToFloor(b, rand, r + 1, rows, cols, px, p);
    }
  }

  /**
   * Scanning a row above y leaves p at (px, y) and the rows below y empty; the
   * pass after the scan is returned.
   */
  lemma ScanAbove(a: Pass, rand: Draws, r: nat, y: nat, rows: nat, cols: nat, px: nat, p: Particle) returns (b: Pass)
    requires Wf(a.state, rows, cols) && ValidDraws(rand) && r < y < rows && px < cols
    requires a.state.cells[y][px] == Occupied(p) && EmptyBelow(a.state.cells, y)
    ensures Wf(b.state, rows, cols) && b.state.cells[y][px] == Occupied(p) && EmptyBelow(b.state.cells, y)
    ensures TopDownFrom(a, rand, r, rows, cols) == TopDownFrom(b, rand, r + 1, rows, cols)
  {
    b := ScanRow(a, rand, r, 0, rows, cols);
    ScanRowFrame(a, rand, r, 0, rows, cols);
    forall j, i | 0 <= j < |b.state.cells| && y < j && 0 <= i < |b.state.cells[j]|
      ensures b.state.cells[j][i] == Empty
    {
      assert a.state.cells[j][i] == Empty;
    }
  }

  /** The rows above p leave p in place and the rows below it empty. */
  lemma {:induction false} FallsFromAbove(a: Pass, rand: Draws, r: nat, y: nat, rows: nat, cols: nat, px: nat, p: Particle)
    requires Wf(a.state, rows, cols) && ValidDraws(rand) && r <= y < rows && px < cols
    requires a.state.cells[y][px] == Occupied(p) && HasUpdate(p.material) && EmptyBelow(a.state.cells, y)
    ensures TopDownFrom(a, rand, r, rows, cols).state.cells[rows - 1][px] == Occupied(p)
    decreases y - r, 1
  {
    if r == y {
      FallsToFloor(a, rand, y, rows, cols, px, p);
    } else {
      var b := ScanAbove(a, rand, r, y, rows, cols, px, p);
      ghost var t := TopDownFrom(a, rand, r, rows, cols);
      FallsFromAboveStep(b, rand, r + 1, y, rows, cols, px, p, t);
    }
  }

  lemma {:induction false} FallsFromAboveStep(b: Pass, rand: Draws, m: nat, y: nat, rows: nat, cols: nat, px: nat, p: Particle, t: Pass)
    requires Wf(b.state, rows, cols) && ValidDraws(rand) && 0 < m <= y < rows && px < cols
    requires b.state.cells[y][px] == Occupied(p) && HasUpdate(p.material) && EmptyBelow(b.state.cells, y)
    requires t == TopDownFrom(b, rand, m, rows, cols)
    ensures Wf(t.state, rows, cols) && t.state.cells[rows - 1][px] == Occupied(p)
    decreases y - m + 1, 0
  {
    FallsFromAbove(b, rand, m, y, rows, cols, px, p);
  }

  /**
   * One `Grid.update()` pass takes a Powder with only empty rows below it
   * straight down to the bottom row of its column.
   */
  lemma TopDownReachesFloor(s: State, rand: Draws, k: nat, rows: nat, cols: nat, x: nat, y: nat, p: Particle)
    requires Wf(s, rows, cols) && ValidDraws(rand) && y < rows && x < cols
    requires s.cells[y][x] == Occupied(p) && HasUpdate(p.material) && EmptyBelow(s.cells, y)
    ensures var b := TopDown(s, rand, k, rows, cols).state;
      b.cells[rows - 1][x] == Occupied(p) && p.id in b.pos && b.pos[p.id] == Pos(x, rows - 1)
  {
    FallsFromAbove(Pass(s, k, []), rand, 0, y, rows, cols, x, p);
  }

  /**
   * The top-down pass can call `update` on one particle more than once: in a
   * one-column grid of two rows, a Powder in the top row is updated there,
   * falls into the bottom row and is updated again when that row is scanned.
   */
  lemma TopDownUpdatesFallenTwice(rand: Draws)
    requires ValidDraws(rand)
    ensures var sand := Particle(0, Sand);
      var s := State([[Occupied(sand)], [Empty]], map[0 := Pos(0, 0)], 1);
      Wf(s, 2, 1) && TopDown(s, rand, 0, 2, 1).calls == [0, 0]
  {
    var sand := Particle(0, Sand);
    var s := State([[Occupied(sand)], [Empty]], map[0 := Pos(0, 0)], 1);
    assert Wf(s, 2, 1);
    var a0 := Pass(s, 0, []);
    var a1 := Visit(a0, rand, 0, 0, 2, 1);
    Powder.FallsStraight(s, sand, 0, 0, rand(0));
    assert a1.calls == [0];
    assert a1.state.cells[1][0] == Occupied(sand);
    assert ScanRow(a0, rand, 0, 0, 2, 1) == ScanRow(a1, rand, 0, 1, 2, 1) == a1;
    var a2 := Visit(a1, rand, 0, 1, 2, 1);
    assert a2.calls == [0, 0];
    assert ScanRow(a1, rand, 1, 0, 2, 1) == ScanRow(a2, rand, 1, 1, 2, 1) == a2;
    assert TopDownFrom(a0, rand, 0, 2, 1) == TopDownFrom(a1, rand, 1, 2, 1);
    assert TopDownFrom(a1, rand, 1, 2, 1) == TopDownFrom(a2, rand, 2, 2, 1) == a2;
  }
}
