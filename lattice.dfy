/**
 * The triangular lattice on which the lenses of one icosahedron face sit:
 * `base` points on the bottom row, one fewer on each row above, every row
 * centred over the one below. A point is indexed by (x, y) with y its row
 * and x its position along the row in half-spacings, so the points of row
 * y are x = y, y + 2, ..., 2 * (base - 1) - y.
 *
 * The source builds the rows with `linspace`, whose end points are always
 * an even number 2 * (base - 1 - y) apart over base - 1 - y steps; every
 * value is therefore an integer, and the model uses `int`.
 */
module Lattice {
  import opened Wrappers

  /** `base * (base + 1) / 2`: the division is exact for every integer. */
  function TriangularNumber(base: int): (t: int)
    ensures 2 * t == base * (base + 1)
  {
    Parity(base);
    base * (base + 1) / 2
  }

  /** One of two consecutive integers is even. */
  lemma Parity(b: int)
    ensures (b * (b + 1)) % 2 == 0
  {
    var h := b / 2;
    if b == 2 * h {
      var x := h * (b + 1);
      assert b * (b + 1) == 2 * x;
    } else {
      assert b + 1 == 2 * (h + 1);
      var x := b * (h + 1);
      assert b * (b + 1) == 2 * x;
    }
  }

  /** The x and y index lists the source returns. */
  datatype Indices = Indices(xs: seq<int>, ys: seq<int>)

  /** Row y: `linspace(y, 2 * (base - 1) - y, base - y)`, i.e. base - y points from y in steps of 2. */
  function RowX(base: int, y: int): (r: seq<int>)
    requires 0 <= y < base
    ensures |r| == base - y && r[0] == y && r[|r| - 1] == 2 * (base - 1) - y
  {
    seq(base - y, m => y + 2 * m)
  }

  /** `repeat(y, base - y)`. */
  function RowY(base: int, y: int): seq<int>
    requires 0 <= y < base
  {
    seq(base - y, _ => y)
  }

  /** Where row y starts in the index lists: the lengths of rows 0 to y - 1. */
  function RowStart(base: int, y: nat): nat
    requires y <= base
  {
    if y == 0 then 0 else RowStart(base, y - 1) + (base - (y - 1))
  }

  /** Rows 0 to n - 1, one after the other. */
  function Rows(base: int, n: nat): (p: Indices)
    requires n <= base
    ensures |p.xs| == RowStart(base, n) && |p.ys| == RowStart(base, n)
  {
    if n == 0 then Indices([], [])
    else
      var q := Rows(base, n - 1);
      Indices(q.xs + RowX(base, n - 1), q.ys + RowY(base, n - 1))
  }

  /**
   * `triangular_indices(base)`: the bottom row, then each row above it
   * appended in turn. For `base <= 0` a `linspace` receives a negative
   * sample count (the loop's, at `base == 0`; the first one below that)
   * and raises.
   */
  method TriangularIndices(base: int) returns (r: Option<Indices>)
    ensures r.None? <==> base <= 0
    ensures r.Some? ==> r.value == Rows(base, base)
    ensures r.Some? ==> |r.value.xs| == TriangularNumber(base) && |r.value.ys| == TriangularNumber(base)
  {
    if base <= 0 {
      return None;
    }
    var xs := RowX(base, 0);
    var ys := RowY(base, 0);
    for i := 1 to base
      invariant Indices(xs, ys) == Rows(base, i)
    {
      xs := xs + RowX(base, i);
      ys := ys + RowY(base, i);
    }
    RowsCount(base, base);
    r := Some(Indices(xs, ys));
  }

  /** Rows 0 to n - 1 hold n * base - n * (n - 1) / 2 points; all rows, the triangular number. */
  lemma {:induction false} RowsCount(base: int, n: nat)
    requires n <= base
    ensures 2 * RowStart(base, n) == n * (2 * base - n + 1)
    ensures n == base ==> RowStart(base, n) == TriangularNumber(base)
  {
    if n > 0 {
      RowsCount(base, n - 1);
      assert 2 * RowStart(base, n) == (n - 1) * (2 * base - n + 2) + 2 * (base - n + 1);
    }
  }

  /**
   * Every index pair of `p` lies in the triangle of rows 0 to n - 1:
   * 0 <= y < n, y <= x <= 2 * (base - 1) - y, and x and y have the same
   * parity; and the y indices never decrease.
   */
  ghost predicate InTriangle(base: int, n: nat, p: Indices)
  {
    && |p.xs| == |p.ys|
    && (forall k :: 0 <= k < |p.xs| ==>
          && 0 <= p.ys[k] < n
          && p.ys[k] <= p.xs[k] <= 2 * (base - 1) - p.ys[k]
          && (p.xs[k] - p.ys[k]) % 2 == 0)
    && (forall k1, k2 :: 0 <= k1 <= k2 < |p.ys| ==> p.ys[k1] <= p.ys[k2])
  }

  /** The rows lie in the triangle, bottom row first. */
  lemma {:induction false} RowsInTriangle(base: int, n: nat)
    requires n <= base
    ensures InTriangle(base, n, Rows(base, n))
  {
    if n > 0 {
      RowsInTriangle(base, n - 1);
      var q := Rows(base, n - 1);
      var p := Rows(base, n);
      forall k | 0 <= k < |p.xs|
        ensures 0 <= p.ys[k] < n && p.ys[k] <= p.xs[k] <= 2 * (base - 1) - p.ys[k] && (p.xs[k] - p.ys[k]) % 2 == 0
        ensures k < |q.xs| ==> p.ys[k] < n - 1
        ensures k >= |q.xs| ==> p.ys[k] == n - 1
      {
        if k < |q.xs| {
          assert p.xs[k] == q.xs[k] && p.ys[k] == q.ys[k];
        } else {
          var j := k - |q.xs|;
          assert p.xs[k] == RowX(base, n - 1)[j] == n - 1 + 2 * j;
          assert p.ys[k] == RowY(base, n - 1)[j] == n - 1;
          assert (2 * j) % 2 == 0;
        }
      }
      forall k1, k2 | 0 <= k1 <= k2 < |p.ys|
        ensures p.ys[k1] <= p.ys[k2]
      {
        if k2 < |q.ys| {
          assert p.ys[k1] == q.ys[k1] && p.ys[k2] == q.ys[k2];
        }
      }
    }
  }

  /**
   * Every point of the triangle appears, at a known place: point m of row y
   * (x = y + 2 * m) is entry RowStart(y) + m of the lists.
   */
  lemma {:induction false} RowsAt(base: int, n: nat, y: nat, m: nat)
    requires y < n <= base && m < base - y
    ensures RowStart(base, y) + m < RowStart(base, n)
    ensures Rows(base, n).xs[RowStart(base, y) + m] == y + 2 * m
    ensures Rows(base, n).ys[RowStart(base, y) + m] == y
  {
    var q := Rows(base, n - 1);
    if y == n - 1 {
      assert Rows(base, n).xs[RowStart(base, y) + m] == RowX(base, y)[m];
      assert Rows(base, n).ys[RowStart(base, y) + m] == RowY(base, y)[m];
    } else {
      RowsAt(base, n - 1, y, m);
      assert Rows(base, n).xs[RowStart(base, y) + m] == q.xs[RowStart(base, y) + m];
      assert Rows(base, n).ys[RowStart(base, y) + m] == q.ys[RowStart(base, y) + m];
    }
  }

  /** The bottom row comes first: x = 0, 2, ..., 2 * (base - 1), all at y = 0. */
  lemma FirstRow(base: int, m: nat)
    requires m < base
    ensures m < |Rows(base, base).xs|
    ensures Rows(base, base).xs[m] == 2 * m && Rows(base, base).ys[m] == 0
  {
    RowsAt(base, base, 0, m);
  }

  lemma SmallLattice()
    ensures Rows(3, 3) == Indices([0, 2, 4, 1, 3, 2], [0, 0, 0, 1, 1, 2])
    ensures TriangularNumber(3) == 6
  {
    assert RowX(3, 0) == [0, 2, 4];
    assert RowX(3, 1) == [1, 3];
    assert RowX(3, 2) == [2];
    assert RowY(3, 0) == [0, 0, 0];
    assert RowY(3, 1) == [1, 1];
    assert RowY(3, 2) == [2];
  }
}
