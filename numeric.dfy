/**
 * Integer arithmetic with the rounding rules of the two runtimes in the system:
 * JavaScript's `Math.round` (halves go toward +infinity) and Python's `round`
 * (halves go to the even neighbour), both applied to an exact quotient n / d.
 */
module Numeric {

  function Abs(x: int): (r: nat)
    ensures r == x || r == -x
  {
    if x < 0 then -x else x
  }

  /** `Math.max(lo, Math.min(hi, x))` */
  function Clamp(x: int, lo: int, hi: int): (r: int)
    requires lo <= hi
    ensures lo <= r <= hi
    ensures lo <= x <= hi ==> r == x
    ensures x < lo ==> r == lo
    ensures hi < x ==> r == hi
  {
    if x < lo then lo else if x > hi then hi else x
  }

  /** The sign of d carried over to n, so that n / d == Num(n, d) / Den(d) with a positive denominator. */
  function Num(n: int, d: int): int { if d < 0 then -n else n }
  function Den(d: int): (r: nat) requires d != 0 ensures r > 0 { if d < 0 then -d else d }

  /**
   * `Math.round(n / d)`: the integer r with r - 1/2 <= n/d < r + 1/2.
   */
  function RoundHalfUp(n: int, d: int): (r: int)
    requires d != 0
    ensures Den(d) * (2 * r - 1) <= 2 * Num(n, d) < Den(d) * (2 * r + 1)
  {
    var N, D := Num(n, d), Den(d);
    var r := (2 * N + D) / (2 * D);
    assert 2 * D * r <= 2 * N + D < 2 * D * r + 2 * D;
    r
  }

  /**
   * Python's `round(n / d)`: the nearest integer, and the even one of the two on a tie.
   */
  function RoundHalfEven(n: int, d: int): (r: int)
    requires d != 0
    ensures Den(d) * (2 * r - 1) <= 2 * Num(n, d) <= Den(d) * (2 * r + 1)
    ensures Den(d) * (2 * r - 1) == 2 * Num(n, d) ==> r % 2 == 0
    ensures 2 * Num(n, d) == Den(d) * (2 * r + 1) ==> r % 2 == 0
  {
    var N, D := Num(n, d), Den(d);
    var q, rem := N / D, N % D;
    var r := if 2 * rem < D then q
             else if 2 * rem > D then q + 1
             else if q % 2 == 0 then q
             else q + 1;
    HalfEvenStep(N, D, q, rem, r);
    r
  }

  /** The choice `RoundHalfEven` makes from the quotient and remainder meets its contract. */
  lemma HalfEvenStep(N: int, D: int, q: int, rem: int, r: int)
    requires D > 0 && q == N / D && rem == N % D
    requires r == if 2 * rem < D then q else if 2 * rem > D then q + 1 else if q % 2 == 0 then q else q + 1
    ensures D * (2 * r - 1) <= 2 * N <= D * (2 * r + 1)
    ensures D * (2 * r - 1) == 2 * N ==> r % 2 == 0
    ensures 2 * N == D * (2 * r + 1) ==> r % 2 == 0
  {
    Distribute(D, r);
    Distribute(D, q);
    assert D * (q + 1) == D * q + D;
  }

  lemma Distribute(a: int, b: int)
    ensures a * (2 * b - 1) == 2 * (a * b) - a
    ensures a * (2 * b + 1) == 2 * (a * b) + a
  {
  }

  /** `Math.round(x)` on an exact real. */
  function RealRound(x: real): (r: int)
    ensures r as real - 0.5 <= x < r as real + 0.5
  {
    (x + 0.5).Floor
  }

  /** Rounding a quotient n / d with 0 <= n <= d, scaled by 100, lands in [0, 100]. */
  lemma RoundHalfEvenPercentBounds(count: int, total: int)
    requires 0 <= count <= total && total > 0
    ensures 0 <= RoundHalfEven(count * 100, total) <= 100
  {
    var r := RoundHalfEven(count * 100, total);
    NearestPercentInRange(r, count, total);
  }

  /** An integer within a half of 100 * count / total, for 0 <= count <= total, lies in [0, 100]. */
  lemma NearestPercentInRange(r: int, count: int, total: int)
    requires 0 <= count <= total && total > 0
    requires total * (2 * r - 1) <= 2 * (count * 100) <= total * (2 * r + 1)
    ensures 0 <= r <= 100
  {
    MulCancel(0, 2 * r + 1, total);
    MulCancel(2 * r - 1, 200, total);
  }

  /** `Math.round(n / d)` of a quotient that lies in [lo, hi] lies in [lo, hi] too. */
  lemma RoundHalfUpWithin(n: int, d: int, lo: int, hi: int)
    requires d > 0 && lo * d <= n <= hi * d
    ensures lo <= RoundHalfUp(n, d) <= hi
  {
    var r := RoundHalfUp(n, d);
    NearestInRange(r, n, d, lo, hi);
  }

  /** An integer within a half of n / d lies in any integer range that holds n / d. */
  lemma NearestInRange(r: int, n: int, d: int, lo: int, hi: int)
    requires d > 0 && lo * d <= n <= hi * d
    requires d * (2 * r - 1) <= 2 * n < d * (2 * r + 1)
    ensures lo <= r <= hi
  {
    MulCancel(2 * r - 1, 2 * hi, d);
    MulCancel(2 * lo, 2 * r + 1, d);
  }

  /** With a positive divisor, `Math.round(n / d)` has the sign of n (or is 0). */
  lemma RoundHalfUpSign(n: int, d: int)
    requires d > 0
    ensures n >= 0 ==> RoundHalfUp(n, d) >= 0
    ensures n <= 0 ==> RoundHalfUp(n, d) <= 0
  {
    if n >= 0 {
      MulMonotone(1, d, n);
      RoundHalfUpWithin(n, d, 0, n);
    } else {
      MulMonotone(1, d, -n);
      RoundHalfUpWithin(n, d, n, 0);
    }
  }

  lemma MulMonotone(a: int, b: int, k: nat)
    requires a <= b
    ensures a * k <= b * k
  {
  }

  lemma MulCancel(a: int, b: int, k: int)
    requires k > 0 && a * k <= b * k
    ensures a <= b
  {
  }

  /** A part over a positive whole is a fraction in [0, 1], and zero only for an empty part. */
  lemma RatioAtMostOne(a: real, b: real)
    requires 0.0 <= a <= b && b > 0.0
    ensures 0.0 <= a / b <= 1.0
    ensures a / b == 0.0 <==> a == 0.0
  {
  }
}
