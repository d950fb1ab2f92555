/** Python's `round(x, 3)` on the exact value of `x`: the nearest multiple of
    one thousandth, ties going to the even multiple. */
module Rounding {

  const Scale: real := 1000.0

  /** The number of thousandths `round(x, 3)` yields. */
  function Thousandths(x: real): int {
    var y := x * Scale;
    var f := y.Floor;
    var d := y - f as real;
    if d < 0.5 then f
    else if d > 0.5 then f + 1
    else if f % 2 == 0 then f
    else f + 1
  }

  function Round3(x: real): real {
    Thousandths(x) as real / Scale
  }

  /** Rounding moves a value by at most half a thousandth. */
  lemma Round3Error(x: real)
    ensures -0.0005 <= Round3(x) - x <= 0.0005
  {
    var y := x * Scale;
    var n := Thousandths(x);
    assert -0.5 <= n as real - y <= 0.5;
    assert Round3(x) - x == (n as real - y) / Scale;
  }

  /** A multiple of one thousandth is left as it is. */
  lemma Round3OnGrid(k: int)
    ensures Round3(k as real / Scale) == k as real / Scale
  {
    assert (k as real / Scale) * Scale == k as real;
    assert (k as real).Floor == k;
  }

  /** Rounding twice is rounding once. */
  lemma Round3Idempotent(x: real)
    ensures Round3(Round3(x)) == Round3(x)
  {
    Round3OnGrid(Thousandths(x));
  }

  /** Rounding keeps order (not necessarily strict order). */
  lemma Round3Monotone(x: real, y: real)
    requires x <= y
    ensures Round3(x) <= Round3(y)
  {
    var a, b := x * Scale, y * Scale;
    assert a <= b;
    var fa, fb := a.Floor, b.Floor;
    assert fa <= fb;
    var na, nb := Thousandths(x), Thousandths(y);
    assert fa <= na <= fa + 1 && fb <= nb <= fb + 1;
    if fa == fb {
      assert a - fa as real <= b - fb as real;
      assert na <= nb;
    } else {
      assert na <= fa + 1 <= fb <= nb;
    }
  }
}
