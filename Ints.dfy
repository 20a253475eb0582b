/** C# integer division and remainder, which truncate toward zero, as opposed to Dafny's
  * Euclidean `/` and `%`. */
module Ints {

  function Abs(a: int): nat
  {
    if a < 0 then -a else a
  }

  lemma DivNonNegative(x: int, y: int)
    requires x >= 0 && y > 0
    ensures x / y >= 0
  {
  }

  /** The quotient of non-negative operands, times the divisor, stays within the dividend;
    * it is positive exactly when the dividend reaches the divisor. */
  lemma QuotientBounds(a: int, b: int)
    requires a >= 0 && b > 0
    ensures 0 <= (a / b) * b <= a
    ensures a / b > 0 <==> a >= b
  {
    assert a == (a / b) * b + a % b;
    DivNonNegative(a, b);
    if a / b > 0 {
      assert (a / b) * b >= b by { assert (a / b) * b - b == (a / b - 1) * b; }
    }
  }

  /** `a / b` in C#: the quotient rounded toward zero. */
  function CDiv(a: int, b: int): (q: int)
    requires b != 0
    ensures Abs(q) == Abs(a) / Abs(b)
    ensures if (a >= 0) == (b > 0) then q >= 0 else q <= 0
  {
    var n := Abs(a) / Abs(b);
    DivNonNegative(Abs(a), Abs(b));
    if (a >= 0) == (b > 0) then n else -n
  }

  /** `a % b` in C#: what is left of `a` after the truncated quotient, so it takes the
    * sign of `a`. */
  function CRem(a: int, b: int): (r: int)
    requires b != 0
    ensures a == CDiv(a, b) * b + r
    ensures Abs(r) < Abs(b)
    ensures a >= 0 ==> r >= 0
    ensures a <= 0 ==> r <= 0
  {
    a - CDiv(a, b) * b
  }

  /** On non-negative operands C# and Dafny agree. */
  lemma CDivOfNonNegative(a: int, b: int)
    requires a >= 0 && b > 0
    ensures CDiv(a, b) == a / b && CRem(a, b) == a % b
  {
  }
}
