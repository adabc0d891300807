/**
 * Creating the world and its particles: the all-`null` grid built by the
 * `Grid` constructor (src/core/Grid.ts) and by src/main.js, and
 * `createParticle` (src/main.js), which stores a new particle in a cell.
 */
module World {
  import opened Elements
  import opened Particles

  /** A `rows` x `cols` grid of `null`s, before any particle exists. */
  function Blank(rows: nat, cols: nat): (s: State)
    ensures Wf(s, rows, cols)
    ensures forall j, i :: 0 <= j < rows && 0 <= i < cols ==> s.cells[j][i] == Empty
  {
    State(seq(rows, _ => seq(cols, _ => Empty)), map[], 0)
  }

  /** The blank grid holds no particle. */
  lemma BlankIsEmpty(rows: nat, cols: nat)
    ensures Population(Blank(rows, cols).cells) == 0
  {
    var g := Blank(rows, cols).cells;
    forall q | q in OccupiedCells(g)
      ensures false
    {
      OccupiedCellsIff(g, q);
    }
    assert OccupiedCells(g) == {};
  }

  /**
   * `grid[y][x] = new M(x, y)`: a fresh particle, whose `x`/`y` are (x, y),
   * replaces whatever the cell held, without a check.
   */
  function Create(s: State, m: Material, x: int, y: int): (t: State)
    requires InBounds(s.cells, x, y)
    ensures SameShape(s.cells, t.cells) && t.next == s.next + 1
    ensures t.cells[y][x] == Occupied(Particle(s.next, m)) && s.next in t.pos && t.pos[s.next] == Pos(x, y)
    ensures forall j, i :: InBounds(s.cells, i, j) && (i != x || j != y) ==> t.cells[j][i] == s.cells[j][i]
    ensures forall id :: id in s.pos && id != s.next ==> id in t.pos && t.pos[id] == s.pos[id]
    ensures t.pos.Keys == s.pos.Keys + {s.next}
  {
    State(Put(s.cells, x, y, Occupied(Particle(s.next, m))), s.pos[s.next := Pos(x, y)], s.next + 1)
  }

  /** Creating a particle keeps the state well formed. */
  lemma CreatePreserves(s: State, m: Material, x: int, y: int, rows: nat, cols: nat)
    requires Wf(s, rows, cols) && InBounds(s.cells, x, y)
    ensures Wf(Create(s, m, x, y), rows, cols)
  {
    var t := Create(s, m, x, y);
    forall j, i | 0 <= j < |t.cells| && 0 <= i < |t.cells[j]| && t.cells[j][i].Occupied?
      ensures t.cells[j][i].particle.id in t.pos && t.pos[t.cells[j][i].particle.id] == Pos(i, j)
    {
      if i != x || j != y {
        assert t.cells[j][i] == s.cells[j][i];
        assert t.cells[j][i].particle.id < s.next;
      }
    }
  }

  /**
   * The particle count grows by one when the cell was empty; an occupied cell
   * loses its old particle to the new one.
   */
  lemma CreatePopulation(s: State, m: Material, x: int, y: int)
    requires InBounds(s.cells, x, y)
    ensures OccupiedCells(Create(s, m, x, y).cells) == OccupiedCells(s.cells) + {Pos(x, y)}
    ensures Population(Create(s, m, x, y).cells) ==
      Population(s.cells) + (if s.cells[y][x] == Empty then 1 else 0)
  {
    var g := s.cells;
    var h := Create(s, m, x, y).cells;
    forall q
      ensures q in OccupiedCells(h) <==> q in OccupiedCells(g) + {Pos(x, y)}
    {
      OccupiedCellsIff(g, q);
      OccupiedCellsIff(h, q);
    }
    OccupiedCellsIff(g, Pos(x, y));
    assert OccupiedCells(h) == OccupiedCells(g) + {Pos(x, y)};
  }
}
