/** Numeric helpers shared by the dashboard components: JavaScript's
    Math.round, two-decimal rounding, clamps, and the index picked from a
    random draw. Every Math.random() value is a parameter r with 0 <= r < 1. */
module Numbers {

  /** A value Math.random() can return. */
  predicate IsDraw(r: real) {
    0.0 <= r < 1.0
  }

  /** Math.round(x): the nearest integer, halves rounded up. */
  function Round(x: real): (n: int)
    ensures n as real <= x + 0.5 < n as real + 1.0
    ensures x - 0.5 < n as real <= x + 0.5
  {
    (x + 0.5).Floor
  }

  lemma RoundOfInt(n: int)
    ensures Round(n as real) == n
  {
  }

  /** Math.round is monotone. */
  lemma {:induction false} RoundMonotone(x: real, y: real)
    requires x <= y
    ensures Round(x) <= Round(y)
  {
    assert Round(x) as real <= y + 0.5 < Round(y) as real + 1.0;
  }

  /** Every integer in [lo, hi] bounds Math.round of a value in [lo, hi]. */
  lemma RoundWithin(x: real, lo: int, hi: int)
    requires lo as real <= x <= hi as real
    ensures lo <= Round(x) <= hi
  {
    RoundMonotone(lo as real, x);
    RoundMonotone(x, hi as real);
    RoundOfInt(lo);
    RoundOfInt(hi);
  }

  /** Number(x.toFixed(2)) on exact decimals: x rounded to cents. toFixed
      rounds the magnitude and puts the sign back, so a tie goes away from
      zero: up for a positive x, down for a negative one. */
  function Round2(x: real): (y: real)
    ensures x - 0.005 <= y <= x + 0.005
    ensures x >= 0.0 ==> x - 0.005 < y
    ensures x <= 0.0 ==> y < x + 0.005
  {
    if x < 0.0 then -(Round(-x * 100.0) as real / 100.0) else Round(x * 100.0) as real / 100.0
  }

  /** Rounding to cents is symmetric about zero, and the ties go outward:
      0.125 becomes 0.13 and -0.125 becomes -0.13. */
  lemma Round2Symmetric(x: real)
    ensures Round2(-x) == -Round2(x)
  {
    if x == 0.0 {
    } else if x < 0.0 {
      assert -x > 0.0;
    }
  }

  lemma Round2Ties()
    ensures Round2(0.125) == 0.13 && Round2(-0.125) == -0.13
  {
    assert Round(0.125 * 100.0) == 13;
    assert Round(-(-0.125) * 100.0) == 13;
  }

  function Min(a: int, b: int): (m: int)
    ensures m <= a && m <= b && (m == a || m == b)
  {
    if a <= b then a else b
  }

  function Max(a: int, b: int): (m: int)
    ensures m >= a && m >= b && (m == a || m == b)
  {
    if a >= b then a else b
  }

  /** Math.min(hi, Math.max(lo, n)). */
  function Clamp(n: int, lo: int, hi: int): (c: int)
    requires lo <= hi
    ensures lo <= c <= hi
    ensures lo <= n <= hi ==> c == n
  {
    Min(hi, Max(lo, n))
  }

  lemma MulNonNegative(a: real, b: real)
    requires a >= 0.0 && b >= 0.0
    ensures a * b >= 0.0
  {
  }

  /** Math.abs on reals. */
  function Abs(x: real): (y: real)
    ensures y >= 0.0 && (y == x || y == -x)
  {
    if x < 0.0 then -x else x
  }

  /** Math.floor(Math.random() * n): the index of a random element. */
  function RandomIndex(r: real, n: nat): (i: nat)
    requires IsDraw(r) && n > 0
    ensures i < n
  {
    var k := (r * n as real).Floor;
    assert 0.0 <= r * n as real < n as real;
    k
  }

  /** The draw k/n picks index k. */
  lemma RandomIndexReaches(k: nat, n: nat)
    requires k < n
    ensures IsDraw(k as real / n as real)
    ensures RandomIndex(k as real / n as real, n) == k
  {
    var r := k as real / n as real;
    assert r * n as real == k as real;
  }

  /** Rounding to cents is monotone. */
  lemma Round2Monotone(x: real, y: real)
    requires x <= y
    ensures Round2(x) <= Round2(y)
  {
    if x < 0.0 && y < 0.0 {
      RoundMonotone(-y * 100.0, -x * 100.0);
    } else if x < 0.0 {
      assert Round2(x) <= 0.0 by {
        RoundWithin(-x * 100.0, 0, (-x * 100.0).Floor + 1);
      }
      RoundWithin(y * 100.0, 0, (y * 100.0).Floor + 1);
    } else {
      RoundMonotone(x * 100.0, y * 100.0);
    }
  }
}
