/**
 * Guarantees of the bottom-up pass of `updateGrid` (src/main.js): since every
 * Powder move goes into the row below, which has already been scanned, no
 * particle is met twice, so each particle's `update` runs at most once and
 * each particle moves at most one step per pass.
 */
module BottomUpFacts {
  import opened Elements
  import opened Particles
  import Powder
  import opened Passes

  /** Either unchanged or one Powder move. */
  ghost predicate StepOrStay(a: Pos, b: Pos)
  {
    b == a || Powder.Falls(a, b)
  }

  ghost predicate Distinct(ids: seq<Pid>)
  {
    forall i, j :: 0 <= i < j < |ids| ==> ids[i] != ids[j]
  }

  /** Cell q lies in the part of the bottom-up scan done before cell (x, y). */
  ghost predicate Scanned(q: Pos, y: int, x: int)
  {
    q.y > y || (q.y == y && q.x < x)
  }

  /** Cells still to be scanned, once (x, y) is next, are as at the start of the pass. */
  ghost predicate UpCells(s0: State, a: Pass, y: int, x: int)
  {
    && SameShape(s0.cells, a.state.cells)
    && forall j, i :: 0 <= j < |s0.cells| && 0 <= i < |s0.cells[j]| && !Scanned(Pos(i, j), y, x) ==>
         a.state.cells[j][i] == s0.cells[j][i]
  }

  /** Every particle is where it was at the start of the pass or one Powder move away. */
  ghost predicate UpMoves(s0: State, a: Pass)
  {
    forall id :: id in s0.pos ==> id in a.state.pos && StepOrStay(s0.pos[id], a.state.pos[id])
  }

  /** The particles updated so far are distinct and started the pass in the scanned part. */
  ghost predicate UpCalls(s0: State, a: Pass, y: int, x: int)
  {
    && (forall k :: 0 <= k < |a.calls| ==>
          a.calls[k] in s0.pos && InBounds(s0.cells, s0.pos[a.calls[k]].x, s0.pos[a.calls[k]].y)
          && Scanned(s0.pos[a.calls[k]], y, x))
    && Distinct(a.calls)
  }

  /** The invariant of the bottom-up scan relative to the state s0 at the start of the pass. */
  ghost predicate UpInv(s0: State, a: Pass, y: int, x: int)
  {
    UpCells(s0, a, y, x) && UpMoves(s0, a) && UpCalls(s0, a, y, x)
  }

  lemma VisitUpInv(s0: State, a: Pass, rand: Draws, x: nat, y: nat, rows: nat, cols: nat)
    requires Wf(s0, rows, cols) && Wf(a.state, rows, cols) && ValidDraws(rand) && y < rows && x < cols
    requires UpInv(s0, a, y, x)
    ensures UpInv(s0, Visit(a, rand, x, y, rows, cols), y, x + 1)
  {
    VisitCellsUpInv(s0, a, rand, x, y, rows, cols);
    var c := a.state.cells[y][x];
    if c.Occupied? && HasUpdate(c.particle.material) {
      var p := c.particle;
      assert !Scanned(Pos(x, y), y, x);
      assert s0.cells[y][x] == Occupied(p);
      VisitMovesUpInv(s0, a, rand, x, y, rows, cols, p);
      VisitCallsUpInv(s0, a, rand, x, y, rows, cols, p);
    } else {
      VisitFrame(a, rand, x, y, rows, cols);
    }
  }

  /** The cells still to be scanned after the visit of (x, y) are untouched by it. */
  lemma VisitCellsUpInv(s0: State, a: Pass, rand: Draws, x: nat, y: nat, rows: nat, cols: nat)
    requires Wf(s0, rows, cols) && Wf(a.state, rows, cols) && ValidDraws(rand) && y < rows && x < cols
    requires UpCells(s0, a, y, x)
    ensures UpCells(s0, Visit(a, rand, x, y, rows, cols), y, x + 1)
  {
    VisitFrame(a, rand, x, y, rows, cols);
  }

  /** The particle updated at (x, y) started the pass there, so it ends at most one move away. */
  lemma VisitMovesUpInv(s0: State, a: Pass, rand: Draws, x: nat, y: nat, rows: nat, cols: nat, p: Particle)
    requires Wf(s0, rows, cols) && Wf(a.state, rows, cols) && ValidDraws(rand) && y < rows && x < cols
    requires UpMoves(s0, a)
    requires a.state.cells[y][x] == Occupied(p) && HasUpdate(p.material) && s0.cells[y][x] == Occupied(p)
    ensures UpMoves(s0, Visit(a, rand, x, y, rows, cols))
  {
    var t := Powder.Update(a.state, p, rand(a.used));
    assert Visit(a, rand, x, y, rows, cols).state == t;
    assert s0.pos[p.id] == Pos(x, y) && a.state.pos[p.id] == Pos(x, y);
    forall id | id in s0.pos
      ensures id in t.pos && StepOrStay(s0.pos[id], t.pos[id])
    {
      if id != p.id {
        assert t.pos[id] == a.state.pos[id];
      }
    }
  }

  /** The particle updated at (x, y) has not been updated before in this pass. */
  lemma VisitCallsUpInv(s0: State, a: Pass, rand: Draws, x: nat, y: nat, rows: nat, cols: nat, p: Particle)
    requires Wf(s0, rows, cols) && Wf(a.state, rows, cols) && ValidDraws(rand) && y < rows && x < cols
    requires UpCalls(s0, a, y, x)
    requires a.state.cells[y][x] == Occupied(p) && HasUpdate(p.material) && s0.cells[y][x] == Occupied(p)
    ensures UpCalls(s0, Visit(a, rand, x, y, rows, cols), y, x + 1)
  {
    var b := Visit(a, rand, x, y, rows, cols);
    assert b.calls == a.calls + [p.id];
    UpCallsSnoc(s0, a.calls, b, x, y, rows, cols, p);
  }

  /** Appending the particle found at (x, y), not yet among the calls, extends the invariant past (x, y). */
  lemma UpCallsSnoc(s0: State, calls: seq<Pid>, b: Pass, x: nat, y: nat, rows: nat, cols: nat, p: Particle)
    requires Wf(s0, rows, cols) && y < rows && x < cols && s0.cells[y][x] == Occupied(p)
    requires UpCalls(s0, Pass(b.state, b.used, calls), y, x) && b.calls == calls + [p.id]
    ensures UpCalls(s0, b, y, x + 1)
  {
    assert s0.pos[p.id] == Pos(x, y);
    forall k | 0 <= k < |calls|
      ensures calls[k] != p.id
    {
      assert Scanned(s0.pos[calls[k]], y, x);
    }
  }

  lemma {:induction false} ScanRowUpInv(s0: State, a: Pass, rand: Draws, y: nat, x: nat, rows: nat, cols: nat)
    requires Wf(s0, rows, cols) && Wf(a.state, rows, cols) && ValidDraws(rand) && y < rows && x <= cols
    requires UpInv(s0, a, y, x)
    ensures UpInv(s0, ScanRow(a, rand, y, x, rows, cols), y, cols)
    decreases cols - x
  {
    if x < cols {
      VisitUpInv(s0, a, rand, x, y, rows, cols);
      ScanRowUpInv(s0, Visit(a, rand, x, y, rows, cols), rand, y, x + 1, rows, cols);
    }
  }

  /** Finishing row y is the same as starting row y-1. */
  lemma NextRowUpInv(s0: State, a: Pass, y: int, rows: nat, cols: nat)
    requires Rect(s0.cells, rows, cols) && UpInv(s0, a, y, cols)
    ensures UpInv(s0, a, y - 1, 0)
  {
    forall k | 0 <= k < |a.calls|
      ensures Scanned(s0.pos[a.calls[k]], y - 1, 0)
    {
      assert Scanned(s0.pos[a.calls[k]], y, cols);
    }
  }

  lemma {:induction false} BottomUpFromUpInv(s0: State, a: Pass, rand: Draws, n: nat, rows: nat, cols: nat)
    requires Wf(s0, rows, cols) && Wf(a.state, rows, cols) && ValidDraws(rand) && n <= rows
    requires UpInv(s0, a, n - 1, 0)
    ensures UpInv(s0, BottomUpFrom(a, rand, n, rows, cols), -1, 0)
    decreases n, 1
  {
    if n > 0 {
      var m: nat := n - 1;
      ScanRowUpInv(s0, a, rand, m, 0, rows, cols);
      NextRowUpInv(s0, ScanRow(a, rand, m, 0, rows, cols), m, rows, cols);
      BottomUpFromUpInvStep(s0, a, ScanRow(a, rand, m, 0, rows, cols), rand, m, rows, cols);
    }
  }

  lemma {:induction false} BottomUpFromUpInvStep(s0: State, a: Pass, b: Pass, rand: Draws, m: nat, rows: nat, cols: nat)
    requires Wf(s0, rows, cols) && Wf(a.state, rows, cols) && ValidDraws(rand) && m < rows
    requires b == ScanRow(a, rand, m, 0, rows, cols) && UpInv(s0, b, m - 1, 0)
    ensures UpInv(s0, BottomUpFrom(a, rand, m + 1, rows, cols), -1, 0)
    decreases m + 1, 0
  {
    BottomUpFromUpInv(s0, b, rand, m, rows, cols);
  }

  /**
   * One `updateGrid()` pass calls each particle's `update` at most once, only
   * for particles created before the pass began, and leaves every particle
   * where it was or one Powder move away: at most one row down.
   */
  lemma BottomUpMovesAtMostOnce(s: State, rand: Draws, k: nat, rows: nat, cols: nat)
    requires Wf(s, rows, cols) && ValidDraws(rand)
    ensures var b := BottomUp(s, rand, k, rows, cols);
      && Distinct(b.calls)
      && (forall i :: 0 <= i < |b.calls| ==> b.calls[i] in s.pos)
      && (forall id :: id in s.pos ==> id in b.state.pos && StepOrStay(s.pos[id], b.state.pos[id]))
  {
    var a := Pass(s, k, []);
    assert UpInv(s, a, rows - 1, 0);
    BottomUpFromUpInv(s, a, rand, rows, rows, cols);
  }

  /** Two `updateGrid()` passes, one frame of `loop`: at most two rows down and two columns across. */
  lemma FrameMovesAtMostTwoRows(s: State, rand: Draws, k: nat, rows: nat, cols: nat)
    requires Wf(s, rows, cols) && ValidDraws(rand)
    ensures var b := Ticks(s, rand, k, 2, rows, cols).state;
      forall id :: id in s.pos ==>
        && id in b.pos
        && s.pos[id].y <= b.pos[id].y <= s.pos[id].y + 2
        && s.pos[id].x - 2 <= b.pos[id].x <= s.pos[id].x + 2
  {
    var a1 := BottomUp(s, rand, k, rows, cols);
    BottomUpMovesAtMostOnce(s, rand, k, rows, cols);
    var a2 := BottomUp(a1.state, rand, a1.used, rows, cols);
    BottomUpMovesAtMostOnce(a1.state, rand, a1.used, rows, cols);
  }
}
