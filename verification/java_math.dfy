/** The Java integer conversions the model needs, written out over the
    unbounded integers: `Math.round`, the `(int)` cast of a non-integral value
    and the truncating `/` on integers. */
module JavaMath {

  /** `Math.round`: the nearest integer, halves rounded up. */
  function Round(x: real): (r: int)
    ensures x - 0.5 < r as real <= x + 0.5
  {
    (x + 0.5).Floor
  }

  /** Rounding is the identity on integers. */
  lemma RoundOfInteger(n: int)
    ensures Round(n as real) == n
  {
  }

  /** The cast `(int) x`: rounds toward zero. */
  function Truncate(x: real): (r: int)
    ensures x >= 0.0 ==> 0 <= r && r as real <= x < r as real + 1.0
    ensures x < 0.0 ==> r <= 0 && r as real - 1.0 < x <= r as real
  {
    if x >= 0.0 then x.Floor else -((-x).Floor)
  }

  /** Truncation preserves order. */
  lemma TruncateMonotone(x: real, y: real)
    requires x <= y
    ensures Truncate(x) <= Truncate(y)
  {
  }

  /** Java's `a / b` on integers for a positive divisor: the quotient rounded
      toward zero, so the remainder takes the sign of `a`. */
  function TruncDiv(a: int, b: int): (q: int)
    requires b > 0
    ensures a >= 0 ==> 0 <= a - q * b < b
    ensures a < 0 ==> -b < a - q * b <= 0
  {
    if a >= 0 then a / b else -((-a) / b)
  }

  /** Truncating division preserves order. */
  lemma TruncDivMonotone(a: int, a': int, b: int)
    requires b > 0 && a <= a'
    ensures TruncDiv(a, b) <= TruncDiv(a', b)
  {
    if a >= 0 {
      DivMonotone(a, a', b);
      assert TruncDiv(a, b) == a / b && TruncDiv(a', b) == a' / b;
    } else if a' >= 0 {
      DivNonNegative(-a, b);
      DivNonNegative(a', b);
      assert TruncDiv(a, b) == -((-a) / b) && TruncDiv(a', b) == a' / b;
    } else {
      DivMonotone(-a', -a, b);
      assert TruncDiv(a, b) == -((-a) / b) && TruncDiv(a', b) == -((-a') / b);
    }
  }

  lemma DivNonNegative(x: int, b: int)
    requires b > 0 && x >= 0
    ensures x / b >= 0
  {
  }

  lemma DivMonotone(x: int, y: int, b: int)
    requires b > 0 && 0 <= x <= y
    ensures x / b <= y / b
  {
    var q, q' := x / b, y / b;
    assert q * b <= x && y < q' * b + b;
    if q > q' {
      CancelPositive(q' + 1, q, b);
    }
  }

  lemma CancelPositive(x: int, y: int, b: int)
    requires b > 0 && x <= y
    ensures x * b <= y * b
  {
  }
}
