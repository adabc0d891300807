/**
 * `ParticleSpawner.spawn` (src/engine/input/particleSpawner.ts): it walks the
 * offsets of the square around a centre, row by row, keeps those inside the
 * disc of the spawner's radius and inside the grid, and for each one draws
 * `Math.random()` and calls `createParticle` when the draw is below the
 * material's spawn density. The calls it makes are its result; it never
 * reads the grid.
 */
module Spawner {
  import opened Elements
  import opened Particles
  import opened Passes

  /** `Math.sqrt(dx * dx + dy * dy) <= radius`, for an integer radius. */
  predicate InDisc(dx: int, dy: int, radius: int)
  {
    0 <= radius && dx * dx + dy * dy <= radius * radius
  }

  /** The offset (dx, dy) passes both tests and gets a draw. */
  predicate IsCandidate(cx: int, cy: int, cols: int, rows: int, radius: int, dx: int, dy: int)
  {
    InDisc(dx, dy, radius) && 0 <= cx + dx < cols && 0 <= cy + dy < rows
  }

  /** The number of offsets per side of the square, 2 * radius + 1 (none for a negative radius). */
  function Side(radius: int): (n: nat)
  {
    if radius < 0 then 0 else 2 * radius + 1
  }

  /** The cell of offset number n of row number m, that is (dx, dy) = (n - radius, m - radius). */
  function CellAt(cx: int, cy: int, radius: int, m: nat, n: nat): (q: Pos)
  {
    Pos(cx + n - radius, cy + m - radius)
  }

  /**
   * The candidates, in loop order, among rows 0 .. m-1 of the square of
   * offsets and the first n offsets of row m.
   */
  function Seen(cx: int, cy: int, cols: int, rows: int, radius: int, m: nat, n: nat): (s: seq<Pos>)
    decreases m, n
  {
    if n == 0 then
      if m == 0 then [] else Seen(cx, cy, cols, rows, radius, m - 1, Side(radius))
    else
      Seen(cx, cy, cols, rows, radius, m, n - 1)
        + if IsCandidate(cx, cy, cols, rows, radius, n - 1 - radius, m - radius)
          then [CellAt(cx, cy, radius, m, n - 1)] else []
  }

  /** One more offset of row m: it joins the candidates when it passes both tests. */
  lemma SeenStep(cx: int, cy: int, cols: int, rows: int, radius: int, m: nat, n: nat, dx: int, dy: int)
    requires dx == n - radius && dy == m - radius
    ensures Seen(cx, cy, cols, rows, radius, m, n + 1) == Seen(cx, cy, cols, rows, radius, m, n)
      + if IsCandidate(cx, cy, cols, rows, radius, dx, dy) then [Pos(cx + dx, cy + dy)] else []
  {
  }

  /** Every cell that gets a draw, in the order of the draws. */
  function Candidates(cx: int, cy: int, cols: int, rows: int, radius: int): (c: seq<Pos>)
  {
    Seen(cx, cy, cols, rows, radius, Side(radius), 0)
  }

  /** The candidates whose draw, taken in order from draw number k, is below density d. */
  function Gate(c: seq<Pos>, rand: Draws, k: nat, d: real): (g: seq<Pos>)
  {
    if |c| == 0 then []
    else
      Gate(c[..|c| - 1], rand, k, d) + if rand(k + |c| - 1) < d then [c[|c| - 1]] else []
  }

  lemma GateSnoc(c: seq<Pos>, q: Pos, rand: Draws, k: nat, d: real)
    ensures Gate(c + [q], rand, k, d) == Gate(c, rand, k, d) + if rand(k + |c|) < d then [q] else []
  {
    assert (c + [q])[..|c|] == c;
  }

  /** One offset of the inner loop, seen from the draws: a candidate takes a draw and is emitted when it is below d. */
  lemma GateStep(seen: seq<Pos>, seen2: seq<Pos>, q: Pos, c: bool, rand: Draws, k: nat, d: real, calls: seq<Pos>, k2: nat)
    requires seen2 == if c then seen + [q] else seen
    requires calls == Gate(seen, rand, k, d) && k2 == k + |seen|
    ensures (if c && rand(k2) < d then calls + [q] else calls) == Gate(seen2, rand, k, d)
    ensures (if c then k2 + 1 else k2) == k + |seen2|
  {
    GateSnoc(seen, q, rand, k, d);
  }

  /**
   * The body of the inner loop for offset (dx, dy): the distance test, the
   * bounds test, then one draw and a call when the draw is below d.
   */
  method Offer(cx: int, cy: int, cols: int, rows: int, radius: int, dx: int, dy: int, d: real,
               rand: Draws, calls: seq<Pos>, k: nat)
    returns (calls2: seq<Pos>, k2: nat)
    requires 0 <= radius
    ensures var c := IsCandidate(cx, cy, cols, rows, radius, dx, dy);
      calls2 == (if c && rand(k) < d then calls + [Pos(cx + dx, cy + dy)] else calls)
      && k2 == (if c then k + 1 else k)
  {
    calls2, k2 := calls, k;
    if dx * dx + dy * dy <= radius * radius {
      var x := cx + dx;
      var y := cy + dy;
      if x >= 0 && x < cols && y >= 0 && y < rows {
        if rand(k) < d {
          calls2 := calls + [Pos(x, y)];
        }
        k2 := k + 1;
      }
    }
  }

  class ParticleSpawner {
    var radius: int

    constructor (radius: int)
      ensures this.radius == radius
    {
      this.radius := radius;
    }

    /**
     * `spawn(centerX, centerY, cols, rows, createParticle, M)` with the
     * draws `rand(k)`, `rand(k + 1)`, ...: returns the cells passed to
     * `createParticle`, in call order, and the number of draws taken so far.
     */
    method Spawn(cx: int, cy: int, cols: int, rows: int, m: Material, rand: Draws, k: nat)
      returns (calls: seq<Pos>, k2: nat)
      ensures calls == Gate(Candidates(cx, cy, cols, rows, radius), rand, k, SpawnDensity(m))
      ensures k2 == k + |Candidates(cx, cy, cols, rows, radius)|
    {
      var r := radius;
      var d := SpawnDensity(m);
      calls := [];
      k2 := k;
      ghost var seen: seq<Pos> := [];
      ghost var row: nat := 0;
      var dy := -r;
      while dy <= r
        invariant dy == row - r && row <= Side(r)
        invariant r < 0 ==> row == 0
        invariant seen == Seen(cx, cy, cols, rows, r, row, 0)
        invariant calls == Gate(seen, rand, k, d) && k2 == k + |seen|
      {
        ghost var col: nat := 0;
        var dx := -r;
        while dx <= r
          invariant dx == col - r && col <= Side(r)
          invariant seen == Seen(cx, cy, cols, rows, r, row, col)
          invariant calls == Gate(seen, rand, k, d) && k2 == k + |seen|
        {
          ghost var seen2 := Seen(cx, cy, cols, rows, r, row, col + 1);
          SeenStep(cx, cy, cols, rows, r, row, col, dx, dy);
          GateStep(seen, seen2, Pos(cx + dx, cy + dy), IsCandidate(cx, cy, cols, rows, r, dx, dy),
                   rand, k, d, calls, k2);
          calls, k2 := Offer(cx, cy, cols, rows, r, dx, dy, d, rand, calls, k2);
          seen := seen2;
          col := col + 1;
          dx := dx + 1;
        }
        assert seen == Seen(cx, cy, cols, rows, r, row + 1, 0);
        row := row + 1;
        dy := dy + 1;
      }
    }
  }
}
