/** Integer arithmetic on satoshi amounts and on the one clock the handlers read. */
module Sats {

  /** Seven days in milliseconds: `7 * 24 * 60 * 60 * 1000`, the installment period. */
  const Week: int := 7 * 24 * 60 * 60 * 1000

  function Min(a: int, b: int): (m: int)
    ensures m <= a && m <= b && (m == a || m == b)
  {
    if a <= b then a else b
  }

  /** `Math.ceil(n / d)` for a positive divisor: the least q with n <= d * q.
   *  Dafny's `/` is Euclidean, so the ceiling is taken on the negated dividend. */
  function CeilDiv(n: int, d: int): (q: int)
    requires d > 0
    ensures d * (q - 1) < n <= d * q
  {
    var m := -n;
    assert m == d * (m / d) + m % d && 0 <= m % d < d;
    assert d * (-(m / d)) == -(d * (m / d));
    -(m / d)
  }
}
