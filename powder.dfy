/**
 * The Powder movement rule of src/engine/Powder.ts: fall straight down if
 * possible, otherwise slide to a free lower diagonal chosen by a random draw,
 * otherwise stay.
 */
module Powder {
  import opened Elements
  import opened Particles

  /**
   * The `directions` array: the x-offsets of the free lower diagonals of
   * (x, y), lower-left pushed before lower-right.
   */
  function Diagonals(g: seq<seq<Cell>>, x: int, y: int): (dirs: seq<int>)
    ensures -1 in dirs <==> IsFree(g, x - 1, y + 1)
    ensures 1 in dirs <==> IsFree(g, x + 1, y + 1)
    ensures forall i :: 0 <= i < |dirs| ==> dirs[i] == -1 || dirs[i] == 1
    ensures forall i, j :: 0 <= i < j < |dirs| ==> dirs[i] < dirs[j]
  {
    (if IsFree(g, x - 1, y + 1) then [-1] else []) + (if IsFree(g, x + 1, y + 1) then [1] else [])
  }

  /** `Math.floor(r * n)` for a draw `r` of `Math.random()`: an index into `n` choices. */
  function ChoiceIndex(r: real, n: nat): (i: nat)
    requires 0.0 <= r < 1.0 && 0 < n
    ensures i < n
    ensures i as real <= r * n as real < i as real + 1.0
  {
    assert 0.0 <= r * n as real < n as real by {
      assert r * n as real <= 1.0 * n as real;
      assert (1.0 - r) * n as real > 0.0;
    }
    (r * n as real).Floor
  }

  /** Whether `update` at (x, y) reaches the diagonal choice and so calls `Math.random()`. */
  predicate DrawsRandom(g: seq<seq<Cell>>, x: int, y: int)
  {
    !IsFree(g, x, y + 1) && |Diagonals(g, x, y)| > 0
  }

  /** A Powder move: one row down and at most one column sideways. */
  ghost predicate Falls(a: Pos, b: Pos)
  {
    b.y == a.y + 1 && a.x - 1 <= b.x <= a.x + 1
  }

  /**
   * `update(grid)` of a Powder particle `p`, given the value `r` that
   * `Math.random()` would return if it is called.
   */
  function Update(s: State, p: Particle, r: real): (t: State)
    requires p.id in s.pos && InBounds(s.cells, s.pos[p.id].x, s.pos[p.id].y) && 0.0 <= r < 1.0
    ensures SameShape(s.cells, t.cells) && t.pos.Keys == s.pos.Keys && t.next == s.next
    ensures t.pos[p.id] == s.pos[p.id] || Falls(s.pos[p.id], t.pos[p.id])
    ensures forall id :: id in s.pos && id != p.id ==> t.pos[id] == s.pos[id]
    ensures forall j, i :: InBounds(s.cells, i, j) && Pos(i, j) != s.pos[p.id] ==>
      t.cells[j][i] == s.cells[j][i] || (s.cells[j][i] == Empty && j == s.pos[p.id].y + 1)
  {
    var o := s.pos[p.id];
    if IsFree(s.cells, o.x, o.y + 1) then
      MoveTo(s, p, o.x, o.y + 1)
    else
      var dirs := Diagonals(s.cells, o.x, o.y);
      if |dirs| > 0 then
        MoveTo(s, p, o.x + dirs[ChoiceIndex(r, |dirs|)], o.y + 1)
      else
        s
  }

  /** With the cell below free, the particle moves exactly there, whatever the draw. */
  lemma FallsStraight(s: State, p: Particle, x: int, y: int, r: real)
    requires p.id in s.pos && s.pos[p.id] == Pos(x, y) && InBounds(s.cells, x, y) && 0.0 <= r < 1.0
    requires IsFree(s.cells, x, y + 1)
    ensures Update(s, p, r) == MoveTo(s, p, x, y + 1)
    ensures var t := Update(s, p, r);
      t.pos[p.id] == Pos(x, y + 1) && t.cells[y + 1][x] == Occupied(p) && t.cells[y][x] == Empty
    ensures !DrawsRandom(s.cells, x, y)
  {
    MoveToAccepted(s, p, x, y + 1);
  }

  /**
   * Below blocked (or the floor) and both diagonals free: the particle moves to
   * one of them, the lower-left one exactly when the draw is below one half.
   */
  lemma SlidesEitherWay(s: State, p: Particle, x: int, y: int, r: real)
    requires p.id in s.pos && s.pos[p.id] == Pos(x, y) && InBounds(s.cells, x, y) && 0.0 <= r < 1.0
    requires !IsFree(s.cells, x, y + 1) && IsFree(s.cells, x - 1, y + 1) && IsFree(s.cells, x + 1, y + 1)
    ensures var t := Update(s, p, r);
      var d := if r < 0.5 then -1 else 1;
      t.pos[p.id] == Pos(x + d, y + 1) && t.cells[y + 1][x + d] == Occupied(p) && t.cells[y][x] == Empty
    ensures Update(s, p, r).pos[p.id] != Pos(x, y)
    ensures DrawsRandom(s.cells, x, y)
  {
    var dirs := Diagonals(s.cells, x, y);
    assert dirs == [-1, 1];
    var i := ChoiceIndex(r, 2);
    assert i == 0 <==> r < 0.5;
    MoveToAccepted(s, p, x + dirs[i], y + 1);
  }

  /** Below blocked and exactly one diagonal free: the particle moves to that one, whatever the draw. */
  lemma SlidesToOnlyFree(s: State, p: Particle, x: int, y: int, r: real, d: int)
    requires p.id in s.pos && s.pos[p.id] == Pos(x, y) && InBounds(s.cells, x, y) && 0.0 <= r < 1.0
    requires d == -1 || d == 1
    requires !IsFree(s.cells, x, y + 1) && IsFree(s.cells, x + d, y + 1) && !IsFree(s.cells, x - d, y + 1)
    ensures var t := Update(s, p, r);
      t.pos[p.id] == Pos(x + d, y + 1) && t.cells[y + 1][x + d] == Occupied(p) && t.cells[y][x] == Empty
    ensures DrawsRandom(s.cells, x, y)
  {
    MoveToAccepted(s, p, x + d, y + 1);
    var t := MoveTo(s, p, x + d, y + 1);
    assert t.pos[p.id] == Pos(x + d, y + 1) && t.cells[y + 1][x + d] == Occupied(p) && t.cells[y][x] == Empty;
    OnlyFreeTarget(s, p, x, y, r, d);
  }

  lemma OnlyFreeTarget(s: State, p: Particle, x: int, y: int, r: real, d: int)
    requires p.id in s.pos && s.pos[p.id] == Pos(x, y) && InBounds(s.cells, x, y) && 0.0 <= r < 1.0
    requires d == -1 || d == 1
    requires !IsFree(s.cells, x, y + 1) && IsFree(s.cells, x + d, y + 1) && !IsFree(s.cells, x - d, y + 1)
    ensures Diagonals(s.cells, x, y) == [d] && Update(s, p, r) == MoveTo(s, p, x + d, y + 1)
  {
    OnlyDiagonal(s.cells, x, y, r, d);
    Slides(s, p, x, y, r);
  }

  lemma OnlyDiagonal(g: seq<seq<Cell>>, x: int, y: int, r: real, d: int)
    requires 0.0 <= r < 1.0 && (d == -1 || d == 1)
    requires IsFree(g, x + d, y + 1) && !IsFree(g, x - d, y + 1)
    ensures Diagonals(g, x, y) == [d] && Diagonals(g, x, y)[ChoiceIndex(r, 1)] == d
  {
    assert Diagonals(g, x, y) == [d];
  }

  /**
   * Below blocked (or the floor) and some diagonal free: the particle goes
   * to the diagonal the draw picks from `directions`.
   */
  lemma Slides(s: State, p: Particle, x: int, y: int, r: real)
    requires p.id in s.pos && s.pos[p.id] == Pos(x, y) && InBounds(s.cells, x, y) && 0.0 <= r < 1.0
    requires !IsFree(s.cells, x, y + 1) && |Diagonals(s.cells, x, y)| > 0
    ensures var dirs := Diagonals(s.cells, x, y);
      Update(s, p, r) == MoveTo(s, p, x + dirs[ChoiceIndex(r, |dirs|)], y + 1)
  {
  }

  /** Below and both diagonals blocked or out of bounds: nothing changes and no draw is taken. */
  lemma StaysWhenBlocked(s: State, p: Particle, x: int, y: int, r: real)
    requires p.id in s.pos && s.pos[p.id] == Pos(x, y) && InBounds(s.cells, x, y) && 0.0 <= r < 1.0
    requires !IsFree(s.cells, x, y + 1) && !IsFree(s.cells, x - 1, y + 1) && !IsFree(s.cells, x + 1, y + 1)
    ensures Update(s, p, r) == s
    ensures !DrawsRandom(s.cells, x, y)
  {
    assert Diagonals(s.cells, x, y) == [];
  }

  /** A particle in the bottom row never moves. */
  lemma BottomRowStays(s: State, p: Particle, x: int, y: int, r: real)
    requires p.id in s.pos && s.pos[p.id] == Pos(x, y) && InBounds(s.cells, x, y) && 0.0 <= r < 1.0
    requires y == |s.cells| - 1
    ensures Update(s, p, r) == s
    ensures !DrawsRandom(s.cells, x, y)
  {
    StaysWhenBlocked(s, p, x, y, r);
  }

  /** An update keeps every particle's stored position consistent with its cell. */
  lemma UpdateConsistent(s: State, p: Particle, x: int, y: int, r: real)
    requires Consistent(s) && InBounds(s.cells, x, y) && s.cells[y][x] == Occupied(p) && 0.0 <= r < 1.0
    ensures p.id in s.pos && s.pos[p.id] == Pos(x, y)
    ensures Consistent(Update(s, p, r))
  {
    assert s.cells[y][x].particle.id in s.pos;
    if IsFree(s.cells, x, y + 1) {
      FallsStraight(s, p, x, y, r);
      MoveToConsistent(s, p, x, y, x, y + 1);
    } else {
      var dirs := Diagonals(s.cells, x, y);
      if |dirs| > 0 {
        Slides(s, p, x, y, r);
        MoveToConsistent(s, p, x, y, x + dirs[ChoiceIndex(r, |dirs|)], y + 1);
      } else {
        StaysWhenBlocked(s, p, x, y, r);
      }
    }
  }

  /** An update neither creates nor destroys a particle. */
  lemma UpdatePopulation(s: State, p: Particle, x: int, y: int, r: real)
    requires p.id in s.pos && s.pos[p.id] == Pos(x, y) && InBounds(s.cells, x, y) && s.cells[y][x] == Occupied(p)
    requires 0.0 <= r < 1.0
    ensures Population(Update(s, p, r).cells) == Population(s.cells)
  {
    if IsFree(s.cells, x, y + 1) {
      FallsStraight(s, p, x, y, r);
      MoveToPopulation(s, p, x, y, x, y + 1);
    } else {
      var dirs := Diagonals(s.cells, x, y);
      if |dirs| > 0 {
        Slides(s, p, x, y, r);
        MoveToPopulation(s, p, x, y, x + dirs[ChoiceIndex(r, |dirs|)], y + 1);
      } else {
        StaysWhenBlocked(s, p, x, y, r);
      }
    }
  }
}
