/** Python's `round(x, n)` on exact values: nearest multiple of 10^-n, ties to even. */
module Rounding {

  function HalfEven(x: real): int {
    var f := x.Floor;
    if x - f as real < 0.5 then f
    else if x - f as real > 0.5 then f + 1
    else if f % 2 == 0 then f else f + 1
  }

  function Round2(x: real): real {
    HalfEven(x * 100.0) as real / 100.0
  }

  function Round4(x: real): real {
    HalfEven(x * 10000.0) as real / 10000.0
  }

  lemma HalfEvenMonotone(x: real, y: real)
    requires x <= y
    ensures HalfEven(x) <= HalfEven(y)
  {
    if x.Floor == y.Floor {
    } else {
      assert x.Floor + 1 <= y.Floor;
    }
  }

  /** Rounding preserves order and moves a value by at most half a hundredth. */
  lemma Round2Monotone(x: real, y: real)
    requires x <= y
    ensures Round2(x) <= Round2(y)
    ensures x - 0.005 <= Round2(x) <= x + 0.005
  {
    HalfEvenMonotone(x * 100.0, y * 100.0);
  }

  /** `n` is the nearest integer to `x`, the even one of two equally near. */
  ghost predicate Nearest(x: real, n: int) {
    && x - 0.5 <= n as real <= x + 0.5
    && (x - 0.5 == n as real || n as real == x + 0.5 ==> n % 2 == 0)
  }

  lemma HalfEvenIs(x: real, n: int)
    ensures Nearest(x, n) <==> n == HalfEven(x)
  {
    var f := x.Floor;
    assert f as real <= x < f as real + 1.0;
    if Nearest(x, n) {
      assert f - 1 < n < f + 2;
    }
  }

  /** Rounding takes the nearest multiple of the unit, ties to the even one. */
  lemma RoundsToNearest(x: real)
    ensures Round2(x) * 100.0 == HalfEven(x * 100.0) as real && Nearest(x * 100.0, HalfEven(x * 100.0))
    ensures Round4(x) * 10000.0 == HalfEven(x * 10000.0) as real && Nearest(x * 10000.0, HalfEven(x * 10000.0))
  {
    HalfEvenIs(x * 100.0, HalfEven(x * 100.0));
    HalfEvenIs(x * 10000.0, HalfEven(x * 10000.0));
  }

  /** `y` is `x` rounded to hundredths: a whole number of them, nearest to `x`. */
  ghost predicate Hundredths(x: real, y: real) {
    var n := (y * 100.0).Floor;
    y * 100.0 == n as real && Nearest(x * 100.0, n)
  }

  lemma Round2Is(x: real)
    ensures Hundredths(x, Round2(x))
  {
    RoundsToNearest(x);
    var n := HalfEven(x * 100.0);
    hide HalfEven, Round2, Nearest;
    assert Round2(x) * 100.0 == n as real;
    assert (n as real).Floor == n;
  }

  /** A rounded value stays within an even number of hundredths up to half of one more. */
  lemma RoundedThreshold(x: real, n: int)
    requires n % 2 == 0
    ensures Round2(x) <= n as real / 100.0 <==> x <= (n as real + 0.5) / 100.0
  {
    RoundsToNearest(x);
    var h := HalfEven(x * 100.0);
    hide HalfEven, Round2;
    if x * 100.0 <= n as real + 0.5 {
      assert h <= n + 1;
    }
  }
}
