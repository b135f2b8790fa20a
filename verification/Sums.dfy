/** Sums over rectangles of a grid, and how they split. */
module Sums {
  type Grid = (int, int) -> real

  /** The n values to the right of (x, y). */
  function RowSum(f: Grid, x: int, y: int, n: nat): real {
    if n == 0 then 0.0 else RowSum(f, x, y, n - 1) + f(x + n - 1, y)
  }

  /** The w by h rectangle with its corner at (x, y). */
  function BlockSum(f: Grid, x: int, y: int, w: nat, h: nat): real {
    if h == 0 then 0.0 else BlockSum(f, x, y, w, h - 1) + RowSum(f, x, y + h - 1, w)
  }

  lemma {:induction false} RowSplits(f: Grid, x: int, y: int, m: nat, n: nat)
    ensures RowSum(f, x, y, m + n) == RowSum(f, x, y, m) + RowSum(f, x + m, y, n)
  {
    if n > 0 {
      RowSplits(f, x, y, m, n - 1);
      assert x + m + (n - 1) == x + (m + n) - 1;
    }
  }

  lemma {:induction false} BlockSplitsDown(f: Grid, x: int, y: int, w: nat, m: nat, n: nat)
    ensures BlockSum(f, x, y, w, m + n) == BlockSum(f, x, y, w, m) + BlockSum(f, x, y + m, w, n)
  {
    if n > 0 {
      BlockSplitsDown(f, x, y, w, m, n - 1);
      assert y + m + (n - 1) == y + (m + n) - 1;
    }
  }

  lemma {:induction false} BlockSplitsAcross(f: Grid, x: int, y: int, m: nat, n: nat, h: nat)
    ensures BlockSum(f, x, y, m + n, h) == BlockSum(f, x, y, m, h) + BlockSum(f, x + m, y, n, h)
  {
    if h > 0 {
      BlockSplitsAcross(f, x, y, m, n, h - 1);
      RowSplits(f, x, y + h - 1, m, n);
    }
  }

  /** A square is its four quarters. */
  lemma Quarters(f: Grid, x: int, y: int, n: nat)
    ensures BlockSum(f, x, y, 2 * n, 2 * n) ==
              BlockSum(f, x, y, n, n) + BlockSum(f, x + n, y, n, n)
            + BlockSum(f, x, y + n, n, n) + BlockSum(f, x + n, y + n, n, n)
  {
    BlockSplitsDown(f, x, y, 2 * n, n, n);
    BlockSplitsAcross(f, x, y, n, n, n);
    BlockSplitsAcross(f, x, y + n, n, n, n);
  }

  /** A sum of values that are at least c is at least as many times c. */
  lemma {:induction false} BlockAtLeast(f: Grid, x: int, y: int, w: nat, h: nat, c: real)
    requires forall i, j :: f(i, j) >= c
    ensures BlockSum(f, x, y, w, h) >= (w * h) as real * c
  {
    if h > 0 {
      BlockAtLeast(f, x, y, w, h - 1, c);
      RowAtLeast(f, x, y + h - 1, w, c);
      assert w * h == w * (h - 1) + w;
      assert (w * h) as real == (w * (h - 1)) as real + w as real;
    }
  }

  lemma {:induction false} RowAtLeast(f: Grid, x: int, y: int, n: nat, c: real)
    requires forall i, j :: f(i, j) >= c
    ensures RowSum(f, x, y, n) >= n as real * c
  {
    if n > 0 {
      RowAtLeast(f, x, y, n - 1, c);
      assert n as real * c == (n - 1) as real * c + c;
    }
  }

  ghost predicate ZeroIn(f: Grid, x: int, y: int, w: nat, h: nat) {
    forall i, j | x <= i < x + w && y <= j < y + h :: f(i, j) == 0.0
  }

  /** Without negative values, a sum is zero only where every value is. */
  lemma {:induction false} BlockIsZeroIff(f: Grid, x: int, y: int, w: nat, h: nat)
    requires forall i, j :: f(i, j) >= 0.0
    ensures BlockSum(f, x, y, w, h) >= 0.0
    ensures BlockSum(f, x, y, w, h) == 0.0 <==> ZeroIn(f, x, y, w, h)
  {
    if h > 0 {
      BlockIsZeroIff(f, x, y, w, h - 1);
      RowIsZeroIff(f, x, y + h - 1, w);
    }
  }

  lemma {:induction false} RowIsZeroIff(f: Grid, x: int, y: int, n: nat)
    requires forall i, j :: f(i, j) >= 0.0
    ensures RowSum(f, x, y, n) >= 0.0
    ensures RowSum(f, x, y, n) == 0.0 <==> forall i | x <= i < x + n :: f(i, y) == 0.0
  {
    if n > 0 {
      RowIsZeroIff(f, x, y, n - 1);
    }
  }
}
