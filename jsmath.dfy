/** The JavaScript `Math` operations the application uses, written out over exact reals. */
module JsMath {

  function Max(a: real, b: real): real { if a >= b then a else b }

  function Min(a: real, b: real): real { if a <= b then a else b }

  function Abs(a: real): real { if a < 0.0 then -a else a }

  /** `Math.round`: the nearest integer, halves rounded towards positive infinity. */
  function Round(x: real): (n: int)
    ensures x - 0.5 < n as real <= x + 0.5
  {
    (x + 0.5).Floor
  }

  /** Truncation towards zero, which JavaScript's `%` is defined by. */
  function Trunc(x: real): (n: int)
    ensures Abs(n as real) <= Abs(x) < Abs(n as real) + 1.0
    ensures (x >= 0.0 ==> n >= 0) && (x <= 0.0 ==> n <= 0)
  {
    if x >= 0.0 then x.Floor else -((-x).Floor)
  }

  /** JavaScript's `n % d` on numbers: the remainder keeps the sign of the dividend. */
  function Remainder(n: real, d: real): real
    requires d != 0.0
  {
    n - d * Trunc(n / d) as real
  }

  /** `Math.round` never decreases when its argument grows. */
  lemma RoundMonotonic(x: real, y: real)
    requires x <= y
    ensures Round(x) <= Round(y)
  {
  }

  /** `Math.round` returns an integer argument unchanged. */
  lemma RoundOfInteger(n: int)
    ensures Round(n as real) == n
  {
  }

  /** Multiplying by a non-negative factor keeps an order. */
  lemma MulMonotonic(a: real, b: real, c: real)
    requires a <= b && c >= 0.0
    ensures a * c <= b * c
  {
    assert b * c - a * c == (b - a) * c;
  }

  /** Multiplying by a positive factor keeps a strict order. */
  lemma MulStrictMonotonic(a: real, b: real, c: real)
    requires a < b && c > 0.0
    ensures a * c < b * c
  {
    assert b * c - a * c == (b - a) * c;
  }

  /** A dividend smaller in size than the divisor is its own remainder. */
  lemma RemainderOfSmall(n: real, d: real)
    requires d > 0.0 && -d < n < d
    ensures Remainder(n, d) == n
  {
    var q := n / d;
    assert q * d == n;
    if q >= 1.0 {
      MulMonotonic(1.0, q, d);
    }
    if q <= -1.0 {
      MulMonotonic(q, -1.0, d);
    }
    assert Trunc(q) == 0;
  }
}
