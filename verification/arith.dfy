/** Facts about integer multiplication and flooring division that the layout and
    windowing proofs need and the solver does not find on its own. */
module Arith {

  lemma MulMonotone(c: int, x: int, y: int)
    requires c >= 0
    requires x <= y
    ensures c * x <= c * y
  {
    assert c * y - c * x == c * (y - x);
  }

  /** Quotient and remainder are determined by `a == q * n + r` with `0 <= r < n`. */
  lemma DivModUnique(a: int, n: int, q: int, r: int)
    requires n > 0 && 0 <= r < n && a == q * n + r
    ensures a / n == q && a % n == r
  {
    var q' := a / n;
    assert a == n * q' + a % n;
    assert n * (q + 1) == n * q + n;
    assert n * (q' + 1) == n * q' + n;
    if q' > q {
      MulMonotone(n, q + 1, q');
      assert false;
    } else if q' < q {
      MulMonotone(n, q' + 1, q);
      assert false;
    }
  }

  /** Flooring division by a positive divisor is monotone. */
  lemma DivMonotone(a: int, b: int, c: int)
    requires a <= b
    requires c > 0
    ensures a / c <= b / c
  {
    if a / c > b / c {
      MulMonotone(c, b / c + 1, a / c);
      assert false;
    }
  }

  /** `x * n + y` stays below `m * n` when `x < m` and `y < n`. */
  lemma RowMajorBelow(x: int, y: int, m: int, n: int)
    requires 0 <= x < m && 0 <= y < n
    ensures 0 <= x * n + y < m * n
  {
    MulMonotone(n, 0, x);
    MulMonotone(n, x + 1, m);
    assert n * (x + 1) == n * x + n;
  }
}
