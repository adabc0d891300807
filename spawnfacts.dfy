/**
 * What `ParticleSpawner.spawn` promises about the cells it passes to
 * `createParticle`: each one is inside the grid and inside the disc, they
 * come in row-major order (dy outer, dx inner, both ascending) and so are
 * distinct, a candidate is emitted exactly when its draw is below the
 * density, and there are at most (2 * radius + 1)^2 of them.
 */
module SpawnFacts {
  import opened Elements
  import opened Particles
  import opened Passes
  import opened Spawner

  /** p comes strictly before q in the spawner's loop order. */
  predicate Before(p: Pos, q: Pos)
  {
    p.y < q.y || (p.y == q.y && p.x < q.x)
  }

  predicate Ascending(c: seq<Pos>)
  {
    forall i, j :: 0 <= i < j < |c| ==> Before(c[i], c[j])
  }

  lemma {:induction false} SquareLess(a: nat, b: int)
    requires a < b
    ensures a * a < b * b
    decreases b - a
  {
    if b == a + 1 {
      assert b * b == a * a + 2 * a + 1;
    } else {
      SquareLess(a, b - 1);
      assert b * b == (b - 1) * (b - 1) + 2 * b - 1;
    }
  }

  /** An offset whose square is within radius^2 lies within the radius. */
  lemma SquareBound(d: int, radius: int)
    requires 0 <= radius && d * d <= radius * radius
    ensures -radius <= d <= radius
  {
    if d > radius {
      SquareLess(radius, d);
    } else if d < -radius {
      SquareLess(radius, -d);
    }
  }

  /**
   * A cell has been seen after row m, offset n, exactly when it is a
   * candidate whose offset comes before (m, n) in loop order.
   */
  lemma {:induction false} SeenMembers(cx: int, cy: int, cols: int, rows: int, radius: int, m: nat, n: nat, q: Pos)
    requires 0 <= radius && n <= Side(radius)
    ensures q in Seen(cx, cy, cols, rows, radius, m, n) <==>
      IsCandidate(cx, cy, cols, rows, radius, q.x - cx, q.y - cy)
      && (q.y - cy + radius < m || (q.y - cy + radius == m && q.x - cx + radius < n))
    decreases m, n
  {
    var c := IsCandidate(cx, cy, cols, rows, radius, q.x - cx, q.y - cy);
    if n == 0 {
      if c {
        CandidateOffsets(cx, cy, cols, rows, radius, q.x - cx, q.y - cy);
      }
      if m > 0 {
        SeenMembers(cx, cy, cols, rows, radius, m - 1, Side(radius), q);
      }
    } else {
      SeenMembers(cx, cy, cols, rows, radius, m, n - 1, q);
      assert Seen(cx, cy, cols, rows, radius, m, n) == Seen(cx, cy, cols, rows, radius, m, n - 1)
        + if IsCandidate(cx, cy, cols, rows, radius, n - 1 - radius, m - radius)
          then [Pos(cx + n - 1 - radius, cy + m - radius)] else [];
    }
  }

  /** Both offsets of a candidate lie within the radius. */
  lemma CandidateOffsets(cx: int, cy: int, cols: int, rows: int, radius: int, dx: int, dy: int)
    requires IsCandidate(cx, cy, cols, rows, radius, dx, dy)
    ensures -radius <= dx <= radius && -radius <= dy <= radius
  {
    assert 0 <= dx * dx && 0 <= dy * dy;
    SquareBound(dx, radius);
    SquareBound(dy, radius);
  }

  /** Membership in the candidates is the disc test plus the bounds test, for any radius. */
  lemma CandidatesIff(cx: int, cy: int, cols: int, rows: int, radius: int, q: Pos)
    ensures q in Candidates(cx, cy, cols, rows, radius) <==>
      InDisc(q.x - cx, q.y - cy, radius) && 0 <= q.x < cols && 0 <= q.y < rows
  {
    if radius >= 0 {
      SeenMembers(cx, cy, cols, rows, radius, Side(radius), 0, q);
      if IsCandidate(cx, cy, cols, rows, radius, q.x - cx, q.y - cy) {
        CandidateOffsets(cx, cy, cols, rows, radius, q.x - cx, q.y - cy);
      }
    }
  }

  /** The candidates come in loop order. */
  lemma {:induction false} SeenAscending(cx: int, cy: int, cols: int, rows: int, radius: int, m: nat, n: nat)
    requires 0 <= radius && n <= Side(radius)
    ensures Ascending(Seen(cx, cy, cols, rows, radius, m, n))
    decreases m, n
  {
    if n == 0 {
      if m > 0 {
        SeenAscending(cx, cy, cols, rows, radius, m - 1, Side(radius));
      }
    } else {
      var c := Seen(cx, cy, cols, rows, radius, m, n - 1);
      SeenAscending(cx, cy, cols, rows, radius, m, n - 1);
      if IsCandidate(cx, cy, cols, rows, radius, n - 1 - radius, m - radius) {
        var q := CellAt(cx, cy, radius, m, n - 1);
        forall i | 0 <= i < |c|
          ensures Before(c[i], q)
        {
          SeenMembers(cx, cy, cols, rows, radius, m, n - 1, c[i]);
        }
        AscendingSnoc(c, q);
      }
    }
  }

  lemma AscendingSnoc(c: seq<Pos>, q: Pos)
    requires Ascending(c) && forall i :: 0 <= i < |c| ==> Before(c[i], q)
    ensures Ascending(c + [q])
  {
  }

  lemma CandidatesAscending(cx: int, cy: int, cols: int, rows: int, radius: int)
    ensures Ascending(Candidates(cx, cy, cols, rows, radius))
  {
    if radius >= 0 {
      SeenAscending(cx, cy, cols, rows, radius, Side(radius), 0);
    }
  }

  /** At most one candidate per offset looked at so far. */
  lemma {:induction false} SeenSize(cx: int, cy: int, cols: int, rows: int, radius: int, m: nat, n: nat)
    ensures |Seen(cx, cy, cols, rows, radius, m, n)| <= m * Side(radius) + n
    decreases m, n
  {
    if n == 0 {
      if m > 0 {
        SeenSize(cx, cy, cols, rows, radius, m - 1, Side(radius));
        assert (m - 1) * Side(radius) + Side(radius) == m * Side(radius);
      }
    } else {
      SeenSize(cx, cy, cols, rows, radius, m, n - 1);
    }
  }

  lemma CandidatesSize(cx: int, cy: int, cols: int, rows: int, radius: int)
    ensures |Candidates(cx, cy, cols, rows, radius)| <= Side(radius) * Side(radius)
  {
    SeenSize(cx, cy, cols, rows, radius, Side(radius), 0);
  }

  /** Radius 0 looks only at the centre, and a negative radius at nothing. */
  lemma SmallRadius(cx: int, cy: int, cols: int, rows: int)
    ensures Candidates(cx, cy, cols, rows, 0) ==
      if 0 <= cx < cols && 0 <= cy < rows then [Pos(cx, cy)] else []
    ensures forall r :: r < 0 ==> Candidates(cx, cy, cols, rows, r) == []
  {
    assert Candidates(cx, cy, cols, rows, 0) == Seen(cx, cy, cols, rows, 0, 0, 1);
  }

  /** A cell is emitted exactly when it is candidate number i and draw k + i is below d. */
  lemma {:induction false} GateMembers(c: seq<Pos>, rand: Draws, k: nat, d: real, q: Pos)
    ensures q in Gate(c, rand, k, d) <==> exists i :: 0 <= i < |c| && c[i] == q && rand(k + i) < d
  {
    if |c| > 0 {
      var c' := c[..|c| - 1];
      GateMembers(c', rand, k, d, q);
      if q in Gate(c', rand, k, d) {
        var i :| 0 <= i < |c'| && c'[i] == q && rand(k + i) < d;
        assert c[i] == q;
      }
      if exists i :: 0 <= i < |c| && c[i] == q && rand(k + i) < d {
        var i :| 0 <= i < |c| && c[i] == q && rand(k + i) < d;
        if i < |c| - 1 {
          assert c'[i] == q;
        }
      }
    }
  }

  /** The gate keeps a subsequence: never more cells than candidates, and in the same order. */
  lemma {:induction false} GateAscending(c: seq<Pos>, rand: Draws, k: nat, d: real)
    requires Ascending(c)
    ensures Ascending(Gate(c, rand, k, d)) && |Gate(c, rand, k, d)| <= |c|
  {
    if |c| > 0 {
      var c' := c[..|c| - 1];
      var q := c[|c| - 1];
      GateAscending(c', rand, k, d);
      var g := Gate(c', rand, k, d);
      forall i | 0 <= i < |g|
        ensures Before(g[i], q)
      {
        GateMembers(c', rand, k, d, g[i]);
        var j :| 0 <= j < |c'| && c'[j] == g[i] && rand(k + j) < d;
        assert c[j] == g[i];
      }
      AscendingSnoc(g, q);
    }
  }

  /** Density 0 emits nothing; with draws in [0, 1), density 1 emits every candidate. */
  lemma {:induction false} GateDensity(c: seq<Pos>, rand: Draws, k: nat, d: real)
    requires ValidDraws(rand)
    ensures d <= 0.0 ==> Gate(c, rand, k, d) == []
    ensures 1.0 <= d ==> Gate(c, rand, k, d) == c
  {
    if |c| > 0 {
      GateDensity(c[..|c| - 1], rand, k, d);
      assert 0.0 <= rand(k + |c| - 1) < 1.0;
      assert c[..|c| - 1] + [c[|c| - 1]] == c;
    }
  }

  /**
   * The result of `spawn`: every call is a grid cell inside the disc, the
   * calls are distinct and in loop order, there are at most
   * (2 * radius + 1)^2 of them, and a cell is called exactly when it is a
   * candidate whose draw is below the material's spawn density.
   */
  lemma SpawnCalls(cx: int, cy: int, cols: int, rows: int, radius: int, m: Material, rand: Draws, k: nat)
    ensures var c := Candidates(cx, cy, cols, rows, radius);
      var calls := Gate(c, rand, k, SpawnDensity(m));
      && (forall q :: q in calls ==>
            0 <= q.x < cols && 0 <= q.y < rows && InDisc(q.x - cx, q.y - cy, radius))
      && Ascending(calls)
      && |calls| <= Side(radius) * Side(radius)
      && (forall q :: q in calls <==>
            exists i :: 0 <= i < |c| && c[i] == q && rand(k + i) < SpawnDensity(m))
  {
    var c := Candidates(cx, cy, cols, rows, radius);
    var d := SpawnDensity(m);
    forall q
      ensures q in Gate(c, rand, k, d) <==> exists i :: 0 <= i < |c| && c[i] == q && rand(k + i) < d
    {
      GateMembers(c, rand, k, d, q);
    }
    forall q | q in Gate(c, rand, k, d)
      ensures 0 <= q.x < cols && 0 <= q.y < rows && InDisc(q.x - cx, q.y - cy, radius)
    {
      CandidatesIff(cx, cy, cols, rows, radius, q);
    }
    CandidatesAscending(cx, cy, cols, rows, radius);
    GateAscending(c, rand, k, d);
    CandidatesSize(cx, cy, cols, rows, radius);
  }

  /** Calls in loop order are distinct. */
  lemma AscendingDistinct(c: seq<Pos>)
    requires Ascending(c)
    ensures forall i, j :: 0 <= i < |c| && 0 <= j < |c| && i != j ==> c[i] != c[j]
  {
    forall i, j | 0 <= i < |c| && 0 <= j < |c| && i != j
      ensures c[i] != c[j]
    {
      if i < j {
        assert Before(c[i], c[j]);
      } else {
        assert Before(c[j], c[i]);
      }
    }
  }
}
