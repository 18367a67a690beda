/** The easing curve and the linear interpolation the animator applies to each eye. */
module Easing {
  import opened EyeTypes

  function Cube(x: real): real { x * x * x }

  /** Cubing is strictly increasing. */
  lemma CubeStrictlyMonotone(a: real, b: real)
    requires a < b
    ensures Cube(a) < Cube(b)
  {
    var q := a * a + a * b + b * b;
    var c := a + b / 2.0;
    assert q == c * c + 3.0 * b * b / 4.0;
    assert c * c >= 0.0 && b * b >= 0.0;
    if b == 0.0 {
      assert a * a > 0.0;
    } else {
      assert b * b > 0.0;
    }
    assert q > 0.0;
    assert Cube(b) - Cube(a) == (b - a) * q;
    assert (b - a) * q > 0.0;
  }

  /** Cubing preserves order. */
  lemma CubeMonotone(a: real, b: real)
    requires a <= b
    ensures Cube(a) <= Cube(b)
  {
    if a < b { CubeStrictlyMonotone(a, b); }
  }

  /**
   * easeInOut: the cubic ease-in-out curve, 4t^3 below one half and
   * 1 - (2 - 2t)^3 / 2 from one half on.
   */
  function Ease(t: real): (r: real)
    ensures t == 0.0 ==> r == 0.0
    ensures t == 0.5 ==> r == 0.5
    ensures t == 1.0 ==> r == 1.0
    ensures 0.0 <= t <= 1.0 ==> 0.0 <= r <= 1.0
    ensures 0.0 < t < 1.0 ==> 0.0 < r < 1.0
  {
    if t < 0.5 then
      CubeBelowHalf(t);
      4.0 * Cube(t)
    else
      UpperHalf(t);
      CubeBelowHalf(1.0 - t);
      1.0 - Cube(-2.0 * t + 2.0) / 2.0
  }

  /** Doubling multiplies a cube by eight. */
  lemma CubeDouble(x: real)
    ensures Cube(2.0 * x) == 8.0 * Cube(x)
  {
    calc {
      Cube(2.0 * x);
      (2.0 * x) * (2.0 * x) * (2.0 * x);
      8.0 * (x * x * x);
    }
  }

  /** The upper half of the curve mirrors the lower one: (2 - 2t)^3 / 2 is 4(1 - t)^3. */
  lemma UpperHalf(t: real)
    ensures Cube(-2.0 * t + 2.0) / 2.0 == 4.0 * Cube(1.0 - t)
  {
    assert -2.0 * t + 2.0 == 2.0 * (1.0 - t);
    CubeDouble(1.0 - t);
  }

  /** On [0, 1/2], 4t^3 climbs from 0 to 1/2, strictly inside the interval. */
  lemma CubeBelowHalf(t: real)
    ensures t == 0.0 ==> 4.0 * Cube(t) == 0.0
    ensures 0.0 <= t < 0.5 ==> 0.0 <= 4.0 * Cube(t) < 0.5
    ensures 0.0 < t < 0.5 ==> 0.0 < 4.0 * Cube(t)
    ensures 0.0 <= t <= 0.5 ==> 0.0 <= 4.0 * Cube(t) <= 0.5
  {
    assert Cube(0.0) == 0.0 && Cube(0.5) == 0.125;
    if 0.0 <= t <= 0.5 {
      CubeMonotone(0.0, t);
      CubeMonotone(t, 0.5);
      if t < 0.5 { CubeStrictlyMonotone(t, 0.5); }
      if 0.0 < t { CubeStrictlyMonotone(0.0, t); }
    }
  }

  /** The curve is non-decreasing on [0, 1]. */
  lemma {:induction false} EaseMonotone(s: real, t: real)
    requires 0.0 <= s <= t <= 1.0
    ensures Ease(s) <= Ease(t)
  {
    if t < 0.5 {
      CubeMonotone(s, t);
      assert 4.0 * Cube(s) <= 4.0 * Cube(t);
    } else if 0.5 <= s {
      UpperHalf(s);
      UpperHalf(t);
      CubeMonotone(1.0 - t, 1.0 - s);
      assert 4.0 * Cube(1.0 - t) <= 4.0 * Cube(1.0 - s);
    } else {
      CubeBelowHalf(s);
      UpperHalf(t);
      CubeBelowHalf(1.0 - t);
      assert Ease(s) <= 0.5 <= Ease(t);
    }
  }

  /** The curve is point-symmetric about (1/2, 1/2). */
  lemma EaseSymmetric(t: real)
    requires 0.0 <= t <= 1.0
    ensures Ease(1.0 - t) == 1.0 - Ease(t)
  {
    if t < 0.5 {
      UpperHalf(1.0 - t);
      assert 1.0 - (1.0 - t) == t;
    } else if t > 0.5 {
      UpperHalf(t);
    }
  }

  function Min(a: real, b: real): real { if a <= b then a else b }
  function Max(a: real, b: real): real { if a <= b then b else a }

  /** The product of two non-negative reals is non-negative, and positive when both are. */
  lemma ProductSign(x: real, y: real)
    requires 0.0 <= x && 0.0 <= y
    ensures 0.0 <= x * y
    ensures 0.0 < x && 0.0 < y ==> 0.0 < x * y
  {
  }

  /** Moving a fraction p in [0, 1] of the way up from a to b stays within [a, b]. */
  lemma StepUp(a: real, b: real, p: real)
    requires a < b
    requires 0.0 <= p <= 1.0
    ensures a <= a + (b - a) * p <= b
    ensures 0.0 < p < 1.0 ==> a < a + (b - a) * p < b
  {
    ProductSign(b - a, p);
    ProductSign(b - a, 1.0 - p);
    assert b - (a + (b - a) * p) == (b - a) * (1.0 - p);
  }

  /** Where a + (b - a) * p lies relative to a and b. */
  lemma StepWithin(a: real, b: real, p: real)
    requires 0.0 <= p <= 1.0
    ensures Min(a, b) <= a + (b - a) * p <= Max(a, b)
    ensures 0.0 < p < 1.0 && a != b ==> Min(a, b) < a + (b - a) * p < Max(a, b)
  {
    if a < b {
      StepUp(a, b, p);
      assert Min(a, b) == a && Max(a, b) == b;
      assert a <= a + (b - a) * p <= b;
      assert 0.0 < p < 1.0 ==> a < a + (b - a) * p < b;
    } else if b < a {
      StepUp(b, a, 1.0 - p);
      assert a + (b - a) * p == b + (a - b) * (1.0 - p);
      assert Min(a, b) == b && Max(a, b) == a;
    } else {
      assert (b - a) * p == 0.0;
    }
  }

  /** The value a fraction `p` of the way from `a` to `b`. */
  function Lerp(a: real, b: real, p: real): (r: real)
    ensures p == 0.0 ==> r == a
    ensures p == 1.0 ==> r == b
    ensures 0.0 <= p <= 1.0 ==> Min(a, b) <= r <= Max(a, b)
    ensures 0.0 < p < 1.0 && a != b ==> Min(a, b) < r < Max(a, b)
  {
    if 0.0 <= p <= 1.0 then
      StepWithin(a, b, p);
      a + (b - a) * p
    else
      a + (b - a) * p
  }

  /** Each of the four fields of an eye a fraction `p` of the way from `s` to `t`. */
  function Interpolate(s: EyeState, t: EyeState, p: real): (r: EyeState)
    ensures p == 0.0 ==> r == s
    ensures p == 1.0 ==> r == t
    ensures 0.0 <= p <= 1.0 && Sane(s) && Sane(t) ==> Sane(r)
  {
    EyeState(Lerp(s.xOffset, t.xOffset, p), Lerp(s.yOffset, t.yOffset, p),
             Lerp(s.width, t.width, p), Lerp(s.height, t.height, p))
  }

  /** The animator's progress: elapsed time over the duration, clamped to one. */
  function Progress(elapsed: nat, duration: nat): (p: real)
    requires duration > 0
    ensures 0.0 <= p <= 1.0
    ensures p == 1.0 <==> elapsed >= duration
    ensures elapsed == 0 ==> p == 0.0
    ensures 0 < elapsed ==> 0.0 < p
  {
    var q := elapsed as real / duration as real;
    if q >= 1.0 then 1.0 else q
  }

  /** Progress never goes back as the elapsed time grows. */
  lemma ProgressMonotone(e1: nat, e2: nat, duration: nat)
    requires duration > 0 && e1 <= e2
    ensures Progress(e1, duration) <= Progress(e2, duration)
  {
    var d := duration as real;
    assert e2 as real / d - e1 as real / d == (e2 - e1) as real / d;
  }

  /** Moving a fraction p of the way from a to b, a larger fraction is never further from b. */
  lemma LerpMonotone(a: real, b: real, p: real, q: real)
    requires 0.0 <= p <= q <= 1.0
    ensures a <= b ==> Lerp(a, b, p) <= Lerp(a, b, q)
    ensures b <= a ==> Lerp(a, b, q) <= Lerp(a, b, p)
  {
    assert Lerp(a, b, q) - Lerp(a, b, p) == (b - a) * (q - p);
    if a <= b {
      ProductSign(b - a, q - p);
    } else {
      ProductSign(a - b, q - p);
    }
  }

  /**
   * One field of an eye in flight: while 0 < elapsed < duration it lies
   * strictly between its start and its target (when those differ), and as
   * the elapsed time grows it never moves away from the target.
   */
  lemma InFlight(a: real, b: real, e1: nat, e2: nat, duration: nat)
    requires duration > 0 && e1 <= e2 <= duration
    ensures 0 < e1 < duration && a != b ==>
              Min(a, b) < Lerp(a, b, Ease(Progress(e1, duration))) < Max(a, b)
    ensures a <= b ==> Lerp(a, b, Ease(Progress(e1, duration))) <= Lerp(a, b, Ease(Progress(e2, duration)))
    ensures b <= a ==> Lerp(a, b, Ease(Progress(e2, duration))) <= Lerp(a, b, Ease(Progress(e1, duration)))
  {
    var p1, p2 := Progress(e1, duration), Progress(e2, duration);
    ProgressMonotone(e1, e2, duration);
    EaseMonotone(p1, p2);
    LerpMonotone(a, b, Ease(p1), Ease(p2));
  }
}
