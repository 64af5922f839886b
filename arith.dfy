/** Integer helpers that make the C++ operators of the battle program explicit. */
module Arith {

  function Min(a: int, b: int): int { if a <= b then a else b }

  function Max(a: int, b: int): int { if a >= b then a else b }


  /** C++ integer division by a positive divisor: the quotient is truncated
      toward zero, so the remainder carries the sign of the dividend (Dafny's
      own `/` is Euclidean). */
  function TruncDiv(a: int, b: int): (q: int)
    requires b > 0
    ensures a >= 0 ==> 0 <= a - q * b < b
    ensures a < 0 ==> -b < a - q * b <= 0
  {
    if a >= 0 then a / b
    else
      var q := -((-a) / b);
      assert a - q * b == -((-a) % b) by {
        assert (-a) == ((-a) / b) * b + (-a) % b;
      }
      q
  }

  /** On a non-negative dividend and a positive divisor the C++ and Dafny quotients agree. */
  lemma TruncDivNonNegative(a: int, b: int)
    requires a >= 0 && b > 0
    ensures TruncDiv(a, b) == a / b
  {
  }

  /** Multiplying both sides of an inequality by a non-negative factor keeps it. */
  lemma MulMonotone(a: int, b: int, c: int)
    requires a <= b && c >= 0
    ensures a * c <= b * c
  {
    assert b * c - a * c == (b - a) * c;
  }
}
