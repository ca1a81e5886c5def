/**
 * Real-number helpers shared by the scoring code: clamping to the score range
 * and Python's two-argument `round`, taken on exact reals.
 */
module Numeric {

  /** 10 raised to `n`. */
  function Pow10(n: nat): (p: int)
    ensures p >= 1
  {
    if n == 0 then 1 else 10 * Pow10(n - 1)
  }

  function Min(a: real, b: real): (r: real)
    ensures r <= a && r <= b && (r == a || r == b)
  {
    if a <= b then a else b
  }

  function Max(a: real, b: real): (r: real)
    ensures r >= a && r >= b && (r == a || r == b)
  {
    if a >= b then a else b
  }

  /** `min(max(x, 0), 100)`: the score range [0, 100]. */
  function Clamp100(x: real): (r: real)
    ensures 0.0 <= r <= 100.0
    ensures 0.0 <= x <= 100.0 ==> r == x
    ensures x < 0.0 ==> r == 0.0
    ensures x > 100.0 ==> r == 100.0
  {
    Min(Max(x, 0.0), 100.0)
  }

  /** The integer nearest to `y`; a tie goes to the even neighbour (Python's rounding rule). */
  function RoundHalfEven(y: real): (k: int)
    ensures y - 0.5 <= k as real <= y + 0.5
    ensures k == y.Floor || k == y.Floor + 1
  {
    var f := y.Floor;
    var d := y - f as real;
    if d < 0.5 then f
    else if d > 0.5 then f + 1
    else if f % 2 == 0 then f
    else f + 1
  }

  /** Python's `round(x, 2)` on exact reals: the nearest multiple of 0.01, ties to even. */
  function Round2(x: real): real
  {
    RoundHalfEven(x * 100.0) as real / 100.0
  }

  /** Python's `round(x, 4)` on exact reals: the nearest multiple of 0.0001, ties to even. */
  function Round4(x: real): real
  {
    RoundHalfEven(x * 10000.0) as real / 10000.0
  }

  /** Rounding to an integer never crosses an integer bound. */
  lemma RoundHalfEvenWithin(y: real, lo: int, hi: int)
    requires lo as real <= y <= hi as real
    ensures lo <= RoundHalfEven(y) <= hi
  {
    var f := y.Floor;
    assert lo <= f;
    if RoundHalfEven(y) == f + 1 {
      assert y > f as real;
      assert f < hi;
    }
  }

  /** Rounding to an integer is monotone. */
  lemma RoundHalfEvenMonotone(y1: real, y2: real)
    requires y1 <= y2
    ensures RoundHalfEven(y1) <= RoundHalfEven(y2)
  {
    var f1, f2 := y1.Floor, y2.Floor;
    assert f1 <= f2;
    if f1 == f2 {
      var d1, d2 := y1 - f1 as real, y2 - f2 as real;
      assert d1 <= d2;
    }
  }

  /** A value between two integers is still between them after `round(_, 2)`. */
  lemma Round2Within(x: real, lo: int, hi: int)
    requires lo as real <= x <= hi as real
    ensures lo as real <= Round2(x) <= hi as real
  {
    RoundHalfEvenWithin(x * 100.0, lo * 100, hi * 100);
  }

  /** Scores in [0, 100] stay in [0, 100] after `round(_, 2)`. */
  lemma Round2ScoreRange(x: real)
    requires 0.0 <= x <= 100.0
    ensures 0.0 <= Round2(x) <= 100.0
  {
    Round2Within(x, 0, 100);
  }

  /** `round(_, 2)` is monotone. */
  lemma Round2Monotone(x1: real, x2: real)
    requires x1 <= x2
    ensures Round2(x1) <= Round2(x2)
  {
    RoundHalfEvenMonotone(x1 * 100.0, x2 * 100.0);
  }

  /** `round(_, 4)` is monotone. */
  lemma Round4Monotone(x1: real, x2: real)
    requires x1 <= x2
    ensures Round4(x1) <= Round4(x2)
  {
    RoundHalfEvenMonotone(x1 * 10000.0, x2 * 10000.0);
  }

  /** A value between two integers is still between them after `round(_, 4)`. */
  lemma Round4Within(x: real, lo: int, hi: int)
    requires lo as real <= x <= hi as real
    ensures lo as real <= Round4(x) <= hi as real
  {
    RoundHalfEvenWithin(x * 10000.0, lo * 10000, hi * 10000);
  }

  /** `round(_, 2)` lands on a multiple of 0.01 at most half a hundredth away from its argument. */
  lemma Round2Error(x: real)
    ensures -0.005 <= Round2(x) - x <= 0.005
    ensures (Round2(x) * 100.0).Floor as real == Round2(x) * 100.0
  {
    var y := x * 100.0;
    var k := RoundHalfEven(y);
    var r := Round2(x);
    assert r == k as real / 100.0;
    assert r * 100.0 == k as real;
    assert (k as real).Floor == k;
    assert y - 0.5 <= k as real <= y + 0.5;
    assert r - x == (k as real - y) / 100.0;
  }

  /** `round(_, 4)` lands on a multiple of 0.0001 at most half a unit in the fourth decimal away. */
  lemma Round4Error(x: real)
    ensures -0.00005 <= Round4(x) - x <= 0.00005
    ensures (Round4(x) * 10000.0).Floor as real == Round4(x) * 10000.0
  {
    var y := x * 10000.0;
    var k := RoundHalfEven(y);
    var r := Round4(x);
    assert r == k as real / 10000.0;
    assert r * 10000.0 == k as real;
    assert (k as real).Floor == k;
    assert y - 0.5 <= k as real <= y + 0.5;
    assert r - x == (k as real - y) / 10000.0;
  }

  /** A whole number is left unchanged by rounding. */
  lemma RoundWhole(n: int)
    ensures Round2(n as real) == n as real && Round4(n as real) == n as real
  {
    assert RoundHalfEven(n as real * 100.0) == n * 100;
    assert RoundHalfEven(n as real * 10000.0) == n * 10000;
  }

  /** `k / n * 100`, a share of `n` as a percentage. */
  function Percent(k: nat, n: nat): (p: real)
    requires 0 < n && k <= n
    ensures 0.0 <= p <= 100.0
    ensures k == 0 ==> p == 0.0
    ensures k == n ==> p == 100.0
  {
    RatioAtMostOne(k as real, n as real);
    k as real / n as real * 100.0
  }

  lemma RatioAtMostOne(a: real, b: real)
    requires 0.0 <= a <= b && 0.0 < b
    ensures 0.0 <= a / b <= 1.0
    ensures a == b ==> a / b == 1.0
  {
  }
}
