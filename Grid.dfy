/** The x-fastest linearisation of a 3-D grid used by both the INL writer's
    voxel loop and the sampling filter's point loop: the cell (x, y, z) of a
    grid with d0 columns and d1 rows is stored at z*d0*d1 + d0*y + x. */
module Grid {

  function LinearIndex(x: nat, y: nat, z: nat, d0: nat, d1: nat): nat {
    z * d0 * d1 + d0 * y + x
  }

  predicate InGrid(x: nat, y: nat, z: nat, d0: nat, d1: nat, d2: nat) {
    x < d0 && y < d1 && z < d2
  }

  /** Every cell of the grid lands inside [0, d0*d1*d2). */
  lemma LinearIndexInRange(x: nat, y: nat, z: nat, d0: nat, d1: nat, d2: nat)
    requires InGrid(x, y, z, d0, d1, d2)
    ensures LinearIndex(x, y, z, d0, d1) < d0 * d1 * d2
  {
    calc {
      LinearIndex(x, y, z, d0, d1);
    ==
      z * (d0 * d1) + (d0 * y + x);
    <  { assert d0 * y + x < d0 * (y + 1); }
      z * (d0 * d1) + d0 * (y + 1);
    <= { MulMono(y + 1, d1, d0); }
      z * (d0 * d1) + d0 * d1;
    ==
      (z + 1) * (d0 * d1);
    <= { MulMono(z + 1, d2, d0 * d1); }
      d2 * (d0 * d1);
    }
  }

  lemma MulMono(a: nat, b: nat, c: nat)
    requires a <= b
    ensures c * a <= c * b && a * c <= b * c
  {
  }

  /** The offset of a cell within its plane is below the plane size. */
  lemma PlaneOffsetBound(x: nat, y: nat, d0: nat, d1: nat)
    requires x < d0 && y < d1
    ensures d0 * y + x < d0 * d1
  {
    assert d0 * y + x < d0 * (y + 1);
    MulMono(y + 1, d1, d0);
  }

  /** The index as plane number times plane size plus offset in the plane. */
  lemma PlaneSplit(x: nat, y: nat, z: nat, d0: nat, d1: nat)
    ensures LinearIndex(x, y, z, d0, d1) == z * (d0 * d1) + (d0 * y + x)
  {
    assert z * d0 * d1 == z * (d0 * d1);
  }

  /** The index as row number times row size plus offset in the row. */
  lemma RowSplit(x: nat, y: nat, z: nat, d0: nat, d1: nat)
    ensures LinearIndex(x, y, z, d0, d1) == (z * d1 + y) * d0 + x
  {
    assert (z * d1 + y) * d0 == z * d1 * d0 + y * d0;
    assert z * d1 * d0 == z * d0 * d1;
  }

  /** Within one plane, the offset names the cell. */
  lemma SameOffset(x: nat, y: nat, x': nat, y': nat, d0: nat)
    requires x < d0 && x' < d0
    requires d0 * y + x == d0 * y' + x'
    ensures x == x' && y == y'
  {
    assert y * d0 + x == y' * d0 + x';
    SameQuotient(y, x, y', x', d0);
  }

  /** Distinct cells get distinct indices: no index is visited twice. */
  lemma {:induction false} LinearIndexInjective(x: nat, y: nat, z: nat, x': nat, y': nat, z': nat,
                                                d0: nat, d1: nat, d2: nat)
    requires InGrid(x, y, z, d0, d1, d2) && InGrid(x', y', z', d0, d1, d2)
    requires LinearIndex(x, y, z, d0, d1) == LinearIndex(x', y', z', d0, d1)
    ensures x == x' && y == y' && z == z'
  {
    PlaneOffsetBound(x, y, d0, d1);
    PlaneOffsetBound(x', y', d0, d1);
    PlaneSplit(x, y, z, d0, d1);
    PlaneSplit(x', y', z', d0, d1);
    SameQuotient(z, d0 * y + x, z', d0 * y' + x', d0 * d1);
    SameOffset(x, y, x', y', d0);
  }

  /** Division with remainder is unique. */
  lemma SameQuotient(q: nat, r: nat, q': nat, r': nat, n: nat)
    requires r < n && r' < n
    requires q * n + r == q' * n + r'
    ensures q == q' && r == r'
  {
    if q < q' {
      MulMono(q + 1, q', n);
      assert false;
    } else if q' < q {
      MulMono(q' + 1, q, n);
      assert false;
    }
  }

  /** Stepping the x-fastest loops: the index after the last cell of a row is
      the first cell of the next row, and after the last row of a plane the
      first cell of the next plane. */
  lemma RowEnd(y: nat, z: nat, d0: nat, d1: nat)
    ensures LinearIndex(d0, y, z, d0, d1) == LinearIndex(0, y + 1, z, d0, d1)
  {
    assert d0 * y + d0 == d0 * (y + 1);
  }

  lemma PlaneEnd(z: nat, d0: nat, d1: nat)
    ensures LinearIndex(0, d1, z, d0, d1) == LinearIndex(0, 0, z + 1, d0, d1)
  {
    assert z * d0 * d1 + d0 * d1 == (z + 1) * d0 * d1;
  }

  lemma GridEnd(d0: nat, d1: nat, d2: nat)
    ensures LinearIndex(0, 0, d2, d0, d1) == d0 * d1 * d2
  {
  }

  /** The cell stored at linear index c, recovered by division. */
  function CellOf(c: nat, d0: nat, d1: nat): (nat, nat, nat)
    requires d0 > 0 && d1 > 0
  {
    (c % d0, (c / d0) % d1, c / (d0 * d1))
  }

  /** Quotient and remainder are determined by any decomposition c = q*n + r
      with 0 <= r < n. */
  lemma DivModUnique(c: nat, q: nat, r: nat, n: nat)
    requires 0 <= r < n && c == q * n + r
    ensures c / n == q && c % n == r
  {
    SameQuotient(c / n, c % n, q, r, n);
  }

  /** Linearising a cell and dividing back gives the same cell: the index
      names the cell it was computed from. */
  lemma {:induction false} CellOfLinearIndex(x: nat, y: nat, z: nat, d0: nat, d1: nat, d2: nat)
    requires InGrid(x, y, z, d0, d1, d2)
    ensures CellOf(LinearIndex(x, y, z, d0, d1), d0, d1) == (x, y, z)
  {
    var c := LinearIndex(x, y, z, d0, d1);
    PlaneOffsetBound(x, y, d0, d1);
    PlaneSplit(x, y, z, d0, d1);
    DivModUnique(c, z, d0 * y + x, d0 * d1);
    RowSplit(x, y, z, d0, d1);
    DivModUnique(c, z * d1 + y, x, d0);
    DivModUnique(z * d1 + y, z, y, d1);
  }
}
