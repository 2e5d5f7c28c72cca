/**
 * Products and quotients of the row-major index arithmetic that the tables,
 * the Sobol path vector and the step order share.
 */
module Arith {
  lemma MulMonotone(a: nat, b: nat, n: nat)
    requires a <= b
    ensures a * n <= b * n
  {
  }

  lemma MulLess(a: nat, b: nat, n: nat)
    requires a < b
    ensures a * n + n <= b * n
  {
    MulMonotone(a + 1, b, n);
  }

  /** `q·w <= i < q·w + w` pins down the quotient and the remainder of `i` by `w`. */
  lemma DivModOfBlock(i: int, q: int, w: int)
    requires w > 0 && 0 <= q && q * w <= i < q * w + w
    ensures i / w == q && i % w == i - q * w
  {
    var d := i / w;
    assert i == d * w + i % w && 0 <= i % w < w;
    if d < q {
      MulLess(d, q, w);
      assert false;
    } else if d > q {
      MulLess(q, d, w);
      assert false;
    }
  }
}
