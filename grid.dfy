/** The grids the canvas backgrounds lay out with two nested loops,
    `for (x = left; x < width; x += g) for (y = top; y < height; y += g)`:
    the points they visit, in visiting order, and which points those are. */
module Grid {

  /** A dot of the grid. */
  datatype Dot = Dot(x: nat, y: nat)

  /** The dots of one column at `x`, from `y` down, every `g` pixels. */
  function ColumnFrom(x: nat, y: nat, height: nat, g: nat): seq<Dot>
    requires g > 0
    decreases height - y
  {
    if y < height then [Dot(x, y)] + ColumnFrom(x, y + g, height, g) else []
  }

  /** The columns from `x` on, every `g` pixels, each from `top` down. */
  function GridFrom(x: nat, top: nat, width: nat, height: nat, g: nat): seq<Dot>
    requires g > 0
    decreases width - x
  {
    if x < width then ColumnFrom(x, top, height, g) + GridFrom(x + g, top, width, height, g) else []
  }

  /** Column by column, top to bottom within a column. */
  predicate Before(a: Dot, b: Dot) {
    a.x < b.x || (a.x == b.x && a.y < b.y)
  }

  predicate ColumnMajor(dots: seq<Dot>) {
    forall k, m :: 0 <= k < m < |dots| ==> Before(dots[k], dots[m])
  }

  /** Helpers on Euclidean division by a step `g`. */
  lemma MulAtLeast(a: int, g: int)
    requires a >= 1 && g > 0
    ensures a * g >= g
  {
  }

  lemma MulNonPositive(a: int, g: int)
    requires a <= 0 && g > 0
    ensures a * g <= 0
  {
  }

  lemma MulDistrib(a: int, b: int, g: int)
    ensures (a + b) * g == a * g + b * g
    ensures (a - b) * g == a * g - b * g
  {
  }

  lemma DivModUnique(n: int, g: int, q: int, r: int)
    requires g > 0 && 0 <= r < g && n == q * g + r
    ensures n / g == q && n % g == r
  {
    var q0, r0 := n / g, n % g;
    assert n == q0 * g + r0;
    MulDistrib(q, q0, g);
    assert (q - q0) * g == r0 - r;
    if q > q0 {
      MulAtLeast(q - q0, g);
    } else if q < q0 {
      MulAtLeast(q0 - q, g);
      MulDistrib(q0, q, g);
    }
  }

  lemma ModShift(y: int, g: int)
    requires g > 0
    ensures (y + g) % g == y % g
  {
    var q, r := y / g, y % g;
    assert y == q * g + r;
    MulDistrib(q, 1, g);
    DivModUnique(y + g, g, q + 1, r);
  }

  /** The next value above `y` with the same remainder is `y + g`. */
  lemma ModStep(y: nat, z: nat, g: nat)
    requires g > 0 && y < z && z % g == y % g
    ensures y + g <= z && (y + g) % g == y % g
  {
    var q1, q2, r := y / g, z / g, y % g;
    assert y == q1 * g + r && z == q2 * g + r;
    MulDistrib(q2, q1, g);
    if q2 - q1 < 1 {
      MulNonPositive(q2 - q1, g);
    }
    MulAtLeast(q2 - q1, g);
    ModShift(y, g);
  }

  /** A column holds only points `(x, Y)` with `y <= Y < height` and `Y` a
      step of `g` away from `y`. */
  lemma {:induction false} ColumnMembers(x: nat, y: nat, height: nat, g: nat)
    requires g > 0
    ensures forall d :: d in ColumnFrom(x, y, height, g) ==>
      d.x == x && y <= d.y < height && d.y % g == y % g
    decreases height - y
  {
    if y < height {
      ColumnMembers(x, y + g, height, g);
      ModShift(y, g);
      assert ColumnFrom(x, y, height, g) == [Dot(x, y)] + ColumnFrom(x, y + g, height, g);
    }
  }

  /** A column holds every such point. */
  lemma {:induction false} ColumnComplete(x: nat, y: nat, height: nat, g: nat)
    requires g > 0
    ensures forall z: nat :: y <= z < height && z % g == y % g ==> Dot(x, z) in ColumnFrom(x, y, height, g)
    decreases height - y
  {
    if y < height {
      var rest := ColumnFrom(x, y + g, height, g);
      ColumnComplete(x, y + g, height, g);
      assert ColumnFrom(x, y, height, g) == [Dot(x, y)] + rest;
      forall z: nat | y <= z < height && z % g == y % g
        ensures Dot(x, z) in ColumnFrom(x, y, height, g)
      {
        if z > y {
          ModStep(y, z, g);
          assert Dot(x, z) in rest;
        }
      }
    }
  }

  /** Two ordered runs, the first wholly before the second, make one. */
  lemma ConcatOrdered(a: seq<Dot>, b: seq<Dot>)
    requires ColumnMajor(a) && ColumnMajor(b)
    requires forall d, e :: d in a && e in b ==> Before(d, e)
    ensures ColumnMajor(a + b)
  {
    forall k, m | 0 <= k < m < |a + b|
      ensures Before((a + b)[k], (a + b)[m])
    {
      if m < |a| {
      } else if k >= |a| {
        assert (a + b)[k] == b[k - |a|] && (a + b)[m] == b[m - |a|];
      } else {
        assert (a + b)[k] == a[k] && a[k] in a;
        assert (a + b)[m] == b[m - |a|] && b[m - |a|] in b;
      }
    }
  }

  /** A column runs top to bottom. */
  lemma {:induction false} ColumnOrdered(x: nat, y: nat, height: nat, g: nat)
    requires g > 0
    ensures ColumnMajor(ColumnFrom(x, y, height, g))
    decreases height - y
  {
    if y < height {
      var rest := ColumnFrom(x, y + g, height, g);
      ColumnOrdered(x, y + g, height, g);
      ColumnMembers(x, y + g, height, g);
      ConcatOrdered([Dot(x, y)], rest);
      assert ColumnFrom(x, y, height, g) == [Dot(x, y)] + rest;
    }
  }

  /** A column holds exactly the points `(x, Y)` with `y <= Y < height`
      and `Y` a step of `g` away from `y`, in order. */
  lemma ColumnFacts(x: nat, y: nat, height: nat, g: nat)
    requires g > 0
    ensures forall d :: d in ColumnFrom(x, y, height, g) ==>
      d.x == x && y <= d.y < height && d.y % g == y % g
    ensures forall z: nat :: y <= z < height && z % g == y % g ==> Dot(x, z) in ColumnFrom(x, y, height, g)
    ensures ColumnMajor(ColumnFrom(x, y, height, g))
  {
    ColumnMembers(x, y, height, g);
    ColumnComplete(x, y, height, g);
    ColumnOrdered(x, y, height, g);
  }

  /** The grid from column `x` on holds only points `(X, Y)` with
      `x <= X < width`, `top <= Y < height`, `X` a step of `g` away from
      `x` and `Y` one from `top`. */
  lemma {:induction false} GridMembers(x: nat, top: nat, width: nat, height: nat, g: nat)
    requires g > 0
    ensures forall d :: d in GridFrom(x, top, width, height, g) ==>
      x <= d.x < width && d.x % g == x % g && top <= d.y < height && d.y % g == top % g
    decreases width - x
  {
    if x < width {
      ColumnMembers(x, top, height, g);
      GridMembers(x + g, top, width, height, g);
      ModShift(x, g);
    }
  }

  /** It holds every such point. */
  lemma {:induction false} GridComplete(x: nat, top: nat, width: nat, height: nat, g: nat)
    requires g > 0
    ensures forall X: nat, Y: nat :: x <= X < width && X % g == x % g && top <= Y < height && Y % g == top % g ==>
      Dot(X, Y) in GridFrom(x, top, width, height, g)
    decreases width - x
  {
    if x < width {
      var col, rest := ColumnFrom(x, top, height, g), GridFrom(x + g, top, width, height, g);
      assert GridFrom(x, top, width, height, g) == col + rest;
      ColumnComplete(x, top, height, g);
      GridComplete(x + g, top, width, height, g);
      forall X: nat, Y: nat | x <= X < width && X % g == x % g && top <= Y < height && Y % g == top % g
        ensures Dot(X, Y) in col + rest
      {
        if X == x {
          assert Dot(X, Y) in col;
        } else {
          ModStep(x, X, g);
          assert Dot(X, Y) in rest;
        }
      }
    }
  }

  /** It runs column by column, each top to bottom. */
  lemma {:induction false} GridOrdered(x: nat, top: nat, width: nat, height: nat, g: nat)
    requires g > 0
    ensures ColumnMajor(GridFrom(x, top, width, height, g))
    decreases width - x
  {
    if x < width {
      var col, rest := ColumnFrom(x, top, height, g), GridFrom(x + g, top, width, height, g);
      assert GridFrom(x, top, width, height, g) == col + rest;
      ColumnOrdered(x, top, height, g);
      ColumnMembers(x, top, height, g);
      GridOrdered(x + g, top, width, height, g);
      GridMembers(x + g, top, width, height, g);
      ConcatOrdered(col, rest);
    }
  }

  /** The grid from column `x` on holds exactly the points `(X, Y)` with
      `x <= X < width` and `top <= Y < height`, `X` a step of `g` away from
      `x` and `Y` one from `top`, in order. */
  lemma GridFacts(x: nat, top: nat, width: nat, height: nat, g: nat)
    requires g > 0
    ensures forall d :: d in GridFrom(x, top, width, height, g) ==>
      x <= d.x < width && d.x % g == x % g && top <= d.y < height && d.y % g == top % g
    ensures forall X: nat, Y: nat :: x <= X < width && X % g == x % g && top <= Y < height && Y % g == top % g ==>
      Dot(X, Y) in GridFrom(x, top, width, height, g)
    ensures ColumnMajor(GridFrom(x, top, width, height, g))
  {
    GridMembers(x, top, width, height, g);
    GridComplete(x, top, width, height, g);
    GridOrdered(x, top, width, height, g);
  }

  // ---------------------------------------------------------------------
  // Steps of the nested loops

  /** Visiting the point at `y` moves it from the rest of the column to
      the visited part. */
  lemma NextRow(visited: seq<Dot>, x: nat, y: nat, height: nat, g: nat)
    requires g > 0 && y < height
    ensures visited + ColumnFrom(x, y, height, g) == (visited + [Dot(x, y)]) + ColumnFrom(x, y + g, height, g)
  {
  }

  /** Starting the column at `x` splits the rest of the grid into that
      column and the columns after it. */
  lemma NextColumn(visited: seq<Dot>, x: nat, top: nat, width: nat, height: nat, g: nat)
    requires g > 0 && x < width
    ensures visited + GridFrom(x, top, width, height, g)
      == visited + ColumnFrom(x, top, height, g) + GridFrom(x + g, top, width, height, g)
  {
  }

  /** Once `y` passes the height the column at `x` is done. */
  lemma ColumnDone(visited: seq<Dot>, x: nat, y: nat, top: nat, width: nat, height: nat, g: nat)
    requires g > 0 && y >= height
    ensures visited + ColumnFrom(x, y, height, g) + GridFrom(x + g, top, width, height, g)
      == visited + GridFrom(x + g, top, width, height, g)
  {
    assert visited + [] == visited;
  }
}
