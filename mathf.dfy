/** The few Unity `Mathf` helpers the components use, on reals. */
module Mathf {
  function Abs(x: real): (r: real)
    ensures r >= 0.0 && (r == x || r == -x)
  {
    if x < 0.0 then -x else x
  }

  /** Mathf.Clamp: the value itself when it lies in [min, max], else the bound it passed
      (checking the lower bound first). */
  function Clamp(value: real, min: real, max: real): (r: real)
    ensures min <= max ==> min <= r <= max
    ensures min <= value <= max ==> r == value
  {
    if value < min then min else if value > max then max else value
  }

  /** The clamped value is the point of [min, max] nearest to the input. */
  lemma ClampIsNearest(value: real, min: real, max: real, y: real)
    requires min <= max && min <= y <= max
    ensures Abs(Clamp(value, min, max) - value) <= Abs(y - value)
  {
  }

  /** Mathf.Lerp: from `a` towards `b` by the fraction `t`, clamped to [0, 1]. */
  function Lerp(a: real, b: real, t: real): real {
    a + (b - a) * Clamp(t, 0.0, 1.0)
  }

  /** A product of two non-negative reals is non-negative. */
  lemma MulNonNegative(x: real, y: real)
    requires x >= 0.0 && y >= 0.0
    ensures x * y >= 0.0
  {
  }

  /** A step of Lerp lands between its two ends and never overshoots the target. */
  lemma LerpBetween(a: real, b: real, t: real)
    ensures a <= b ==> a <= Lerp(a, b, t) <= b
    ensures b <= a ==> b <= Lerp(a, b, t) <= a
    ensures Abs(b - Lerp(a, b, t)) <= Abs(b - a)
    ensures t >= 1.0 ==> Lerp(a, b, t) == b
    ensures t <= 0.0 ==> Lerp(a, b, t) == a
  {
    var c := Clamp(t, 0.0, 1.0);
    var x := b - a;
    var step := x * c;
    var rest := x * (1.0 - c);
    assert Lerp(a, b, t) == a + step;
    assert step + rest == x;
    if a <= b {
      MulNonNegative(x, c);
      MulNonNegative(x, 1.0 - c);
    } else {
      MulNonNegative(-x, c);
      MulNonNegative(-x, 1.0 - c);
      assert -step == (-x) * c && -rest == (-x) * (1.0 - c);
    }
  }
}
