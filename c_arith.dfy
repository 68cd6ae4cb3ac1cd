/** Integer division and remainder as C defines them: the quotient is
    truncated toward zero and the remainder takes the sign of the dividend.
    Dafny's own `/` and `%` are Euclidean, so the calculator code, which is C,
    is modelled through these two functions. */
module CArith {

  /** C's `a / b` on `int`. */
  function Quot(a: int, b: int): (q: int)
    requires b != 0
    ensures a >= 0 && b > 0 ==> q == a / b
    ensures (a >= 0) == (b > 0) ==> q >= 0
    ensures (a >= 0) != (b > 0) ==> q <= 0
  {
    if a >= 0 && b > 0 then a / b
    else if a < 0 && b < 0 then (-a) / (-b)
    else if a < 0 then -((-a) / b)
    else -(a / (-b))
  }

  /** C's `a % b` on `int`. */
  function Rem(a: int, b: int): (r: int)
    requires b != 0
    ensures a == b * Quot(a, b) + r
    ensures a >= 0 ==> 0 <= r < (if b < 0 then -b else b)
    ensures a < 0 ==> -(if b < 0 then -b else b) < r <= 0
  {
    a - b * Quot(a, b)
  }

  /** Sign and size facts about products, kept as separate steps so that
      the proofs using them stay small. */
  lemma ProductNonNegative(x: int, y: int)
    requires x >= 0 && y >= 0
    ensures x * y >= 0
  {
  }

  lemma AtLeastOneFactor(a: int, n: int)
    requires a >= 0 && n >= 1
    ensures a * n >= a
  {
  }

  lemma BelowOneFactor(k: int, n: int)
    requires n >= 1 && k * n < n
    ensures k <= 0
  {
  }

  lemma ProductAtMost(x: int, y: int, xMax: int, yMax: int)
    requires 0 <= x <= xMax && 0 <= y <= yMax
    ensures x * y <= xMax * yMax
  {
    ProductNonNegative(xMax - x, y);
    ProductNonNegative(xMax, yMax - y);
    assert (xMax - x) * y == xMax * y - x * y;
    assert xMax * (yMax - y) == xMax * yMax - xMax * y;
  }
}
