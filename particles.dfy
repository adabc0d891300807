/**
 * Particle primitives on the occupancy grid: the bounds test and the guarded
 * atomic move of src/engine/Particle.ts.
 */
module Particles {
  import opened Elements

  /** The identity of a particle object (its reference in the source). */
  type Pid = nat

  datatype Pos = Pos(x: int, y: int)

  /** A reference to a particle object, together with its immutable material. */
  datatype Particle = Particle(id: Pid, material: Material)

  /** A grid slot: `null` or a particle reference. */
  datatype Cell = Empty | Occupied(particle: Particle)

  /**
   * The mutable state the particles act on: the grid as rows of cells
   * `cells[y][x]`, the `x`/`y` fields of every particle object ever created
   * (`pos`), and the next fresh particle identity.
   */
  datatype State = State(cells: seq<seq<Cell>>, pos: map<Pid, Pos>, next: Pid)

  /** `inbounds(grid, x, y)`: row `y` exists and has a column `x`. */
  predicate InBounds(g: seq<seq<Cell>>, x: int, y: int)
  {
    0 <= y < |g| && 0 <= x < |g[y]|
  }

  /** The guard of `move_to`: in bounds and holding `null`. */
  predicate IsFree(g: seq<seq<Cell>>, x: int, y: int)
  {
    InBounds(g, x, y) && g[y][x] == Empty
  }

  ghost predicate SameShape(g: seq<seq<Cell>>, h: seq<seq<Cell>>)
  {
    |g| == |h| && forall y :: 0 <= y < |g| ==> |g[y]| == |h[y]|
  }

  /** The grid is `rows` rows of `cols` cells each. */
  ghost predicate Rect(g: seq<seq<Cell>>, rows: nat, cols: nat)
  {
    |g| == rows && forall y :: 0 <= y < |g| ==> |g[y]| == cols
  }

  /** The assignment `grid[y][x] = c`. */
  function Put(g: seq<seq<Cell>>, x: int, y: int, c: Cell): (h: seq<seq<Cell>>)
    requires InBounds(g, x, y)
    ensures SameShape(g, h) && h[y][x] == c
    ensures forall j, i :: InBounds(g, i, j) && (i != x || j != y) ==> h[j][i] == g[j][i]
  {
    g[y := g[y][x := c]]
  }

  /** Every occupied cell holds a particle whose stored position is that cell. */
  ghost predicate Consistent(s: State)
  {
    forall y, x :: 0 <= y < |s.cells| && 0 <= x < |s.cells[y]| && s.cells[y][x].Occupied? ==>
      s.cells[y][x].particle.id in s.pos && s.pos[s.cells[y][x].particle.id] == Pos(x, y)
  }

  /** The state invariant: a `rows` x `cols` grid, consistent positions, fresh identities above `next`. */
  ghost predicate Wf(s: State, rows: nat, cols: nat)
  {
    Rect(s.cells, rows, cols) && Consistent(s) && forall id :: id in s.pos ==> id < s.next
  }

  ghost function OccupiedCells(g: seq<seq<Cell>>): set<Pos>
  {
    set y, x | 0 <= y < |g| && 0 <= x < |g[y]| && g[y][x].Occupied? :: Pos(x, y)
  }

  /** The number of occupied cells. */
  ghost function Population(g: seq<seq<Cell>>): nat
  {
    |OccupiedCells(g)|
  }

  lemma OccupiedCellsIff(g: seq<seq<Cell>>, q: Pos)
    ensures q in OccupiedCells(g) <==> InBounds(g, q.x, q.y) && g[q.y][q.x].Occupied?
  {
    if InBounds(g, q.x, q.y) && g[q.y][q.x].Occupied? {
      assert Pos(q.x, q.y) in OccupiedCells(g);
    }
  }

  /**
   * `p.move_to(grid, nx, ny)`: if the target is in bounds and empty, clear the
   * cell named by the particle's stored position, store the new position and
   * put the particle into the target; otherwise change nothing.
   */
  function MoveTo(s: State, p: Particle, nx: int, ny: int): (r: State)
    requires p.id in s.pos && InBounds(s.cells, s.pos[p.id].x, s.pos[p.id].y)
    ensures SameShape(s.cells, r.cells) && r.pos.Keys == s.pos.Keys && r.next == s.next
  {
    if IsFree(s.cells, nx, ny) then
      var o := s.pos[p.id];
      var cleared := Put(s.cells, o.x, o.y, Empty);
      State(Put(cleared, nx, ny, Occupied(p)), s.pos[p.id := Pos(nx, ny)], s.next)
    else
      s
  }

  /** On a grid of `rows` x `cols` cells, the bounds test admits exactly the grid's cells. */
  lemma InBoundsOfRect(g: seq<seq<Cell>>, rows: nat, cols: nat, x: int, y: int)
    requires Rect(g, rows, cols)
    ensures InBounds(g, x, y) <==> 0 <= x < cols && 0 <= y < rows
  {
  }

  /** A move to a free cell: the source is cleared, the target holds the particle, nothing else changes. */
  lemma MoveToAccepted(s: State, p: Particle, nx: int, ny: int)
    requires p.id in s.pos && InBounds(s.cells, s.pos[p.id].x, s.pos[p.id].y)
    requires IsFree(s.cells, nx, ny)
    ensures var r := MoveTo(s, p, nx, ny); var o := s.pos[p.id];
      && r.cells[ny][nx] == Occupied(p)
      && r.pos[p.id] == Pos(nx, ny)
      && (o != Pos(nx, ny) ==> r.cells[o.y][o.x] == Empty)
      && (forall y, x :: InBounds(s.cells, x, y) && Pos(x, y) != o && Pos(x, y) != Pos(nx, ny) ==>
            r.cells[y][x] == s.cells[y][x])
      && (forall id :: id in s.pos && id != p.id ==> r.pos[id] == s.pos[id])
  {
  }

  /** A move out of bounds or onto an occupied cell changes neither the fields nor the grid. */
  lemma MoveToRejected(s: State, p: Particle, nx: int, ny: int)
    requires p.id in s.pos && InBounds(s.cells, s.pos[p.id].x, s.pos[p.id].y)
    requires !InBounds(s.cells, nx, ny) || s.cells[ny][nx].Occupied?
    ensures MoveTo(s, p, nx, ny) == s
  {
  }

  /**
   * When the particle sits in its own cell of a consistent state, a move keeps
   * the state consistent.
   */
  lemma MoveToConsistent(s: State, p: Particle, x: int, y: int, nx: int, ny: int)
    requires Consistent(s) && InBounds(s.cells, x, y) && s.cells[y][x] == Occupied(p)
    ensures p.id in s.pos && s.pos[p.id] == Pos(x, y)
    ensures Consistent(MoveTo(s, p, nx, ny))
  {
    var r := MoveTo(s, p, nx, ny);
    if IsFree(s.cells, nx, ny) {
      var n := Pos(nx, ny);
      assert Pos(x, y) != n;
      forall j, i | 0 <= j < |r.cells| && 0 <= i < |r.cells[j]| && r.cells[j][i].Occupied?
        ensures r.cells[j][i].particle.id in r.pos && r.pos[r.cells[j][i].particle.id] == Pos(i, j)
      {
        if Pos(i, j) != n {
          assert r.cells[j][i] == s.cells[j][i];
          assert r.cells[j][i].particle.id != p.id;
        }
      }
    }
  }

  /**
   * A move from the particle's own cell only relocates one occupied cell, so
   * the number of occupied cells is unchanged.
   */
  lemma MoveToPopulation(s: State, p: Particle, x: int, y: int, nx: int, ny: int)
    requires p.id in s.pos && s.pos[p.id] == Pos(x, y) && InBounds(s.cells, x, y) && s.cells[y][x] == Occupied(p)
    ensures OccupiedCells(MoveTo(s, p, nx, ny).cells) ==
      if IsFree(s.cells, nx, ny) then OccupiedCells(s.cells) - {Pos(x, y)} + {Pos(nx, ny)}
      else OccupiedCells(s.cells)
    ensures Population(MoveTo(s, p, nx, ny).cells) == Population(s.cells)
  {
    var r := MoveTo(s, p, nx, ny);
    if IsFree(s.cells, nx, ny) {
      var n := Pos(nx, ny);
      var o := Pos(x, y);
      assert o != n;
      var before := OccupiedCells(s.cells);
      var after := OccupiedCells(r.cells);
      forall q
        ensures q in after <==> q in before - {o} + {n}
      {
        OccupiedCellsIff(s.cells, q);
        OccupiedCellsIff(r.cells, q);
      }
      assert after == before - {o} + {n};
      OccupiedCellsIff(s.cells, o);
      OccupiedCellsIff(s.cells, n);
      assert |before - {o}| == |before| - 1;
    }
  }

  /** `move_to` onto the particle's own cell is a no-op: that cell is occupied by the particle itself. */
  lemma MoveToSelf(s: State, p: Particle, x: int, y: int)
    requires Consistent(s) && InBounds(s.cells, x, y) && s.cells[y][x] == Occupied(p)
    ensures MoveTo(s, p, x, y) == s
  {
  }
}
