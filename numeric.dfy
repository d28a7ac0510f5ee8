/** Numeric helpers shared by the instrument's modules: JavaScript's integer
    remainder, `Math.min`/`Math.max`, clamping, and the exponential smoothing
    step `cur += (tgt - cur) * rate` that the animation loop and the motion
    tracker apply to every smoothed quantity. Numbers are Dafny reals; IEEE
    rounding is not modelled. */
module Numeric {

  datatype Option<T> = None | Some(value: T)

  /** A 3-vector of reals (positions, velocities, attractor coordinates). */
  datatype Vec3 = Vec3(x: real, y: real, z: real)

  /** JavaScript's `a % 12`: the remainder takes the sign of the dividend
      (Dafny's `%` is Euclidean and never negative). */
  function JsRem12(a: int): (r: int)
    ensures -12 < r < 12
    ensures (a - r) % 12 == 0
    ensures a >= 0 ==> r >= 0
    ensures a < 0 ==> r <= 0
  {
    if a >= 0 then a % 12
    else
      var q := (-a) / 12;
      assert -a == 12 * q + (-a) % 12;
      assert a + (-a) % 12 == 12 * (-q);
      -((-a) % 12)
  }

  function Min(a: real, b: real): (r: real)
    ensures r <= a && r <= b
    ensures r == a || r == b
  {
    if a <= b then a else b
  }

  function Max(a: real, b: real): (r: real)
    ensures r >= a && r >= b
    ensures r == a || r == b
  {
    if a >= b then a else b
  }

  function Abs(x: real): (r: real)
    ensures r >= 0.0
    ensures r == x || r == -x
  {
    if x < 0.0 then -x else x
  }

  predicate InRange(x: real, lo: real, hi: real)
  {
    lo <= x <= hi
  }

  /** `Math.max(lo, Math.min(hi, x))`, and GLSL `clamp(x, lo, hi)`. */
  function Clamp(x: real, lo: real, hi: real): (r: real)
    requires lo <= hi
    ensures InRange(r, lo, hi)
    ensures InRange(x, lo, hi) ==> r == x
    ensures x < lo ==> r == lo
    ensures x > hi ==> r == hi
  {
    Max(lo, Min(hi, x))
  }

  /** One exponential-smoothing update `cur + (tgt - cur) * rate`. */
  function Lerp(cur: real, tgt: real, rate: real): real
  {
    cur + (tgt - cur) * rate
  }

  /** For a rate in [0, 1] a smoothing update lies between the old value and
      the target and the remaining gap is exactly `(1 - rate)` times the old
      one; for a rate in (0, 1) it moves but never arrives. */
  lemma LerpProperties(cur: real, tgt: real, rate: real)
    ensures tgt - Lerp(cur, tgt, rate) == (1.0 - rate) * (tgt - cur)
    ensures 0.0 <= rate <= 1.0 ==> Min(cur, tgt) <= Lerp(cur, tgt, rate) <= Max(cur, tgt)
    ensures 0.0 <= rate <= 1.0 ==> Abs(Lerp(cur, tgt, rate) - cur) <= Abs(tgt - cur)
    ensures 0.0 < rate < 1.0 && cur != tgt ==> Lerp(cur, tgt, rate) != cur && Lerp(cur, tgt, rate) != tgt
  {
    LerpBetween(cur, tgt, rate);
  }

  lemma LerpBetween(cur: real, tgt: real, rate: real)
    ensures 0.0 <= rate <= 1.0 ==> Min(cur, tgt) <= cur + (tgt - cur) * rate <= Max(cur, tgt)
    ensures 0.0 <= rate <= 1.0 ==> Abs((tgt - cur) * rate) <= Abs(tgt - cur)
    ensures 0.0 < rate < 1.0 && cur != tgt ==> (tgt - cur) * rate != 0.0 && (tgt - cur) * rate != tgt - cur
  {
    var d := tgt - cur;
    var m := 1.0 - rate;
    assert d - d * rate == d * m;
    if 0.0 <= rate <= 1.0 {
      if d >= 0.0 {
        ProductSign(d, rate);
        ProductSign(d, m);
      } else {
        ProductSign(-d, rate);
        ProductSign(-d, m);
        assert (-d) * rate == -(d * rate);
        assert (-d) * m == -(d * m);
      }
    }
    if 0.0 < rate < 1.0 && d != 0.0 {
      ProductSign(d, rate);
      ProductSign(d, m);
    }
  }

  /** The sign rules for a product of reals. */
  lemma ProductSign(a: real, b: real)
    ensures a >= 0.0 && b >= 0.0 ==> a * b >= 0.0
    ensures a != 0.0 && b != 0.0 ==> a * b != 0.0
  {
  }

  /** A quotient by a positive divisor keeps the bounds of the dividend
      measured in units of the divisor. */
  lemma QuotientBounds(w: real, t: real, lo: real, hi: real)
    requires t > 0.0 && lo * t <= w <= hi * t
    ensures lo <= w / t <= hi
  {
    var q := w / t;
    assert q * t == w;
    assert (q - lo) * t == w - lo * t;
    assert (hi - q) * t == hi * t - w;
    FactorSign(q - lo, t);
    FactorSign(hi - q, t);
  }

  /** A product that is not negative, with a positive factor, has a
      non-negative other factor. */
  lemma FactorSign(a: real, b: real)
    requires b > 0.0 && a * b >= 0.0
    ensures a >= 0.0
  {
  }

  /** A value in [lo, hi] smoothed toward a target in [lo, hi] stays there. */
  lemma LerpStaysInRange(cur: real, tgt: real, rate: real, lo: real, hi: real)
    requires InRange(cur, lo, hi) && InRange(tgt, lo, hi)
    requires 0.0 <= rate <= 1.0
    ensures InRange(Lerp(cur, tgt, rate), lo, hi)
  {
    LerpProperties(cur, tgt, rate);
  }

  /** `x^k` for a natural exponent. */
  function Pow(x: real, k: nat): real
  {
    if k == 0 then 1.0 else x * Pow(x, k - 1)
  }

  lemma ScaleWithinUnit(x: real, p: real)
    requires 0.0 <= x <= 1.0 && 0.0 <= p <= 1.0
    ensures 0.0 <= x * p <= p
    ensures x < 1.0 ==> x * p < 1.0
  {
    assert (1.0 - x) * p >= 0.0;
  }

  /** A factor in [0, 1] keeps every power in [0, 1]; a factor below 1 makes
      every positive power below 1. */
  lemma {:induction false} PowBounds(x: real, k: nat)
    requires 0.0 <= x <= 1.0
    ensures 0.0 <= Pow(x, k) <= 1.0
    ensures x < 1.0 && k > 0 ==> Pow(x, k) < 1.0
  {
    if k > 0 {
      PowBounds(x, k - 1);
      ScaleWithinUnit(x, Pow(x, k - 1));
    }
  }

  /** `k` smoothing steps toward a fixed target. */
  function LerpN(cur: real, tgt: real, rate: real, k: nat): real
  {
    if k == 0 then cur else Lerp(LerpN(cur, tgt, rate, k - 1), tgt, rate)
  }

  /** After `k` steps the gap to the target is `(1 - rate)^k` times the
      initial gap; for a rate in (0, 1) that is a strictly smaller gap of the
      same sign, so the value neither overshoots nor arrives. */
  lemma {:induction false} LerpNGap(cur: real, tgt: real, rate: real, k: nat)
    ensures tgt - LerpN(cur, tgt, rate, k) == Pow(1.0 - rate, k) * (tgt - cur)
  {
    if k > 0 {
      LerpNGap(cur, tgt, rate, k - 1);
      var x, q := LerpN(cur, tgt, rate, k - 1), Pow(1.0 - rate, k - 1);
      GapStep(cur, x, tgt, rate, q);
      assert LerpN(cur, tgt, rate, k) == Lerp(x, tgt, rate);
      assert Pow(1.0 - rate, k) == (1.0 - rate) * q;
    }
  }

  lemma GapStep(cur: real, x: real, tgt: real, rate: real, q: real)
    requires tgt - x == q * (tgt - cur)
    ensures tgt - Lerp(x, tgt, rate) == ((1.0 - rate) * q) * (tgt - cur)
  {
    assert tgt - Lerp(x, tgt, rate) == (1.0 - rate) * (tgt - x);
  }
}
