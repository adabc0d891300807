/**
 * Neither pass creates or destroys a particle: `move_to` only relocates one,
 * so the number of occupied cells is the same after any number of passes.
 */
module Conservation {
  import opened Elements
  import opened Particles
  import Powder
  import opened Passes

  lemma VisitPopulation(a: Pass, rand: Draws, x: nat, y: nat, rows: nat, cols: nat)
    requires Wf(a.state, rows, cols) && ValidDraws(rand) && y < rows && x < cols
    ensures Population(Visit(a, rand, x, y, rows, cols).state.cells) == Population(a.state.cells)
  {
    var c := a.state.cells[y][x];
    if c.Occupied? && HasUpdate(c.particle.material) {
      assert c.particle.id in a.state.pos && a.state.pos[c.particle.id] == Pos(x, y);
      Powder.UpdatePopulation(a.state, c.particle, x, y, rand(a.used));
    }
  }

  /** One visit of a row scan, returned together with its population. */
  lemma ScanStep(a: Pass, rand: Draws, y: nat, x: nat, rows: nat, cols: nat) returns (b: Pass)
    requires Wf(a.state, rows, cols) && ValidDraws(rand) && y < rows && x < cols
    ensures Wf(b.state, rows, cols) && Population(b.state.cells) == Population(a.state.cells)
    ensures ScanRow(a, rand, y, x, rows, cols) == ScanRow(b, rand, y, x + 1, rows, cols)
  {
    b := Visit(a, rand, x, y, rows, cols);
    VisitPopulation(a, rand, x, y, rows, cols);
  }

  lemma {:induction false} ScanRowPopulation(a: Pass, rand: Draws, y: nat, x: nat, rows: nat, cols: nat)
    requires Wf(a.state, rows, cols) && ValidDraws(rand) && y < rows && x <= cols
    ensures Population(ScanRow(a, rand, y, x, rows, cols).state.cells) == Population(a.state.cells)
    decreases cols - x
  {
    if x < cols {
      var b := ScanStep(a, rand, y, x, rows, cols);
      ScanRowPopulation(b, rand, y, x + 1, rows, cols);
    }
  }

  lemma {:induction false} TopDownFromPopulation(a: Pass, rand: Draws, y: nat, rows: nat, cols: nat)
    requires Wf(a.state, rows, cols) && ValidDraws(rand) && y <= rows
    ensures Population(TopDownFrom(a, rand, y, rows, cols).state.cells) == Population(a.state.cells)
    decreases rows - y
  {
    if y < rows {
      var b := ScanRow(a, rand, y, 0, rows, cols);
      ScanRowPopulation(a, rand, y, 0, rows, cols);
      TopDownFromPopulation(b, rand, y + 1, rows, cols);
      assert TopDownFrom(a, rand, y, rows, cols) == TopDownFrom(b, rand, y + 1, rows, cols);
    }
  }

  lemma {:induction false} BottomUpFromPopulation(a: Pass, rand: Draws, n: nat, rows: nat, cols: nat)
    requires Wf(a.state, rows, cols) && ValidDraws(rand) && n <= rows
    ensures Population(BottomUpFrom(a, rand, n, rows, cols).state.cells) == Population(a.state.cells)
    decreases n
  {
    if n > 0 {
      var m: nat := n - 1;
      var b := ScanRow(a, rand, m, 0, rows, cols);
      ScanRowPopulation(a, rand, m, 0, rows, cols);
      BottomUpFromPopulation(b, rand, m, rows, cols);
      assert BottomUpFrom(a, rand, n, rows, cols) == BottomUpFrom(b, rand, m, rows, cols);
    }
  }

  /** One `Grid.update()` pass keeps the number of particles. */
  lemma TopDownPopulation(s: State, rand: Draws, k: nat, rows: nat, cols: nat)
    requires Wf(s, rows, cols) && ValidDraws(rand)
    ensures Population(TopDown(s, rand, k, rows, cols).state.cells) == Population(s.cells)
  {
    TopDownFromPopulation(Pass(s, k, []), rand, 0, rows, cols);
  }

  /** One `updateGrid()` pass keeps the number of particles. */
  lemma BottomUpPopulation(s: State, rand: Draws, k: nat, rows: nat, cols: nat)
    requires Wf(s, rows, cols) && ValidDraws(rand)
    ensures Population(BottomUp(s, rand, k, rows, cols).state.cells) == Population(s.cells)
  {
    BottomUpFromPopulation(Pass(s, k, []), rand, rows, rows, cols);
  }

  /** Any number of `updateGrid()` passes keep the number of particles. */
  lemma {:induction false} TicksPopulation(s: State, rand: Draws, k: nat, n: nat, rows: nat, cols: nat)
    requires Wf(s, rows, cols) && ValidDraws(rand)
    ensures Population(Ticks(s, rand, k, n, rows, cols).state.cells) == Population(s.cells)
    decreases n
  {
    if n > 0 {
      var a := BottomUp(s, rand, k, rows, cols);
      BottomUpPopulation(s, rand, k, rows, cols);
      TicksPopulation(a.state, rand, a.used, n - 1, rows, cols);
      assert Ticks(s, rand, k, n, rows, cols) == Ticks(a.state, rand, a.used, n - 1, rows, cols);
    }
  }
}
