/**
 * The vector and scalar arithmetic the controller uses, over exact reals.
 * Floating-point rounding is not modelled; `TAU` stands for the f32 value
 * of `2. * std::f32::consts::PI`.
 */
module Maths {

  /** glam's `Vec2`. */
  datatype Vec2 = Vec2(x: real, y: real) {
    function Plus(o: Vec2): Vec2 { Vec2(x + o.x, y + o.y) }
    function Times(k: real): Vec2 { Vec2(x * k, y * k) }
    function LengthSquared(): real { x * x + y * y }
  }

  const ZERO2: Vec2 := Vec2(0.0, 0.0)

  /** glam's `Vec3` and nalgebra's `Vector3<f32>`. */
  datatype Vec3 = Vec3(x: real, y: real, z: real) {
    function Plus(o: Vec3): Vec3 { Vec3(x + o.x, y + o.y, z + o.z) }
    function Times(k: real): Vec3 { Vec3(x * k, y * k, z * k) }
  }

  const ZERO3: Vec3 := Vec3(0.0, 0.0, 0.0)

  /** 2π, as the f32 constant the source computes. */
  const TAU: real := 6.2831855

  /** `f32::to_radians`. */
  function Radians(degrees: real): real { degrees * TAU / 360.0 }

  /** `f32::max` on numbers (NaN is not modelled). */
  function Max(a: real, b: real): real { if a >= b then a else b }

  /** `f32::min` on numbers (NaN is not modelled). */
  function Min(a: real, b: real): real { if a <= b then a else b }

  /** `x.max(lo).min(hi)`: the point of [lo, hi] nearest to `x`. */
  function Clamp(x: real, lo: real, hi: real): (r: real)
    requires lo <= hi
    ensures lo <= r <= hi
    ensures lo <= x <= hi ==> r == x
    ensures x < lo ==> r == lo
    ensures hi < x ==> r == hi
  {
    Min(Max(x, lo), hi)
  }

  lemma ClampIdempotent(x: real, lo: real, hi: real)
    requires lo <= hi
    ensures Clamp(Clamp(x, lo, hi), lo, hi) == Clamp(x, lo, hi)
  {
  }

  /** `x` is a whole number. */
  predicate IsWhole(x: real) { x.Floor as real == x }

  /**
   * The remainder of `a` by `b` for `a >= 0`, via the floor of the quotient:
   * `a` less a whole number of `b`s, in [0, b).
   */
  function FloorRem(a: real, b: real): (r: real)
    requires a >= 0.0 && b > 0.0
    ensures 0.0 <= r < b
    ensures IsWhole((a - r) / b)
    ensures a < b ==> r == a
  {
    FloorRemBounds(a, b);
    var k := (a / b).Floor;
    WholeMultiple(a, a - b * (k as real), b, k);
    a - b * (k as real)
  }

  /** `a - r` is `k` times `b` exactly when `(a - r) / b` is the whole number `k`. */
  lemma WholeMultiple(a: real, r: real, b: real, k: int)
    requires b > 0.0 && a - r == b * (k as real)
    ensures (a - r) / b == k as real
    ensures IsWhole((a - r) / b)
  {
  }

  lemma FloorRemBounds(a: real, b: real)
    requires a >= 0.0 && b > 0.0
    ensures 0.0 <= a - b * ((a / b).Floor as real) < b
    ensures a < b ==> (a / b).Floor == 0
  {
    var q := a / b;
    var t := q - q.Floor as real;
    assert a - b * (q.Floor as real) == b * t;
    MulBounds(b, t);
    assert b * t < b;
    assert a - b * (q.Floor as real) < b;
    if a < b {
      QuotientBelowOne(a, b);
    }
  }

  lemma QuotientBelowOne(a: real, b: real)
    requires 0.0 <= a < b
    ensures 0.0 <= a / b < 1.0
  {
  }

  lemma MulNonNeg(a: real, b: real)
    requires a >= 0.0 && b >= 0.0
    ensures a * b >= 0.0
  {
  }

  /** 0 <= t < 1 scales into [0, b). */
  lemma MulBounds(b: real, t: real)
    requires b > 0.0 && 0.0 <= t < 1.0
    ensures 0.0 <= b * t < b
  {
    MulNonNeg(b, t);
    assert b * t < b * 1.0 by {
      MulNonNeg(b, 1.0 - t);
      assert b * (1.0 - t) != 0.0;
    }
  }

  /**
   * Rust's `%` on f32 (`fmod`): the remainder of the quotient truncated
   * toward zero, which carries the sign of the dividend.
   */
  function TruncRem(a: real, b: real): (r: real)
    requires b > 0.0
    ensures 0.0 <= a ==> 0.0 <= r < b
    ensures a < 0.0 ==> -b < r <= 0.0
    ensures IsWhole((a - r) / b)
    ensures -b < a < b ==> r == a
  {
    if a >= 0.0 then FloorRem(a, b)
    else
      var r' := FloorRem(-a, b);
      NegatedWhole(-a, r', b);
      -r'
  }

  /** If `a - r` is a whole number of `b`s, so is `-a - -r`. */
  lemma NegatedWhole(a: real, r: real, b: real)
    requires b > 0.0 && IsWhole((a - r) / b)
    ensures IsWhole((-a - -r) / b)
  {
    var k := ((a - r) / b).Floor;
    assert a - r == b * (k as real);
    WholeMultiple(-a, -r, b, -k);
  }

  /** Taking one `b` off the dividend keeps `a - r` a whole number of `b`s. */
  lemma ShiftedWhole(a: real, r: real, b: real)
    requires b > 0.0 && IsWhole((a + b - r) / b)
    ensures IsWhole((a - r) / b)
  {
    var k := ((a + b - r) / b).Floor;
    assert a + b - r == b * (k as real);
    WholeMultiple(a, r, b, k - 1);
  }

  /**
   * Two remainders of the same number by `b` that both lie in [0, b) are the
   * same: the remainder's value is fixed by its range and `a - r` being whole.
   */
  lemma RemainderUnique(a: real, b: real, r: real, r': real)
    requires b > 0.0
    requires 0.0 <= r < b && 0.0 <= r' < b
    requires IsWhole((a - r) / b) && IsWhole((a - r') / b)
    ensures r == r'
  {
    var k := ((a - r) / b).Floor;
    var k' := ((a - r') / b).Floor;
    assert a - r == b * (k as real);
    assert a - r' == b * (k' as real);
    var d := (k - k') as real;
    assert r' - r == b * d;
    if k - k' >= 1 {
      MulNonNeg(b, d - 1.0);
    } else if k - k' <= -1 {
      MulNonNeg(b, -d - 1.0);
    }
  }
}
