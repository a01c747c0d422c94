/**
 Rounding and proportional mapping (`map_ratio` in
 crates/tailkvm-win32/src/screen_space.rs) with exact real quotients, and the
 integer arithmetic behind its bounds.
 */
module Rounding {
  import opened Basics

  function ClampUnit(r: real): real {
    if r < 0.0 then 0.0 else if r > 1.0 then 1.0 else r
  }

  /** `f64::round`: to the nearest integer, halves away from zero. */
  function RoundHalfAway(r: real): int {
    if r >= 0.0 then (r + 0.5).Floor else -((-r + 0.5).Floor)
  }

  /** The free function shared by the two-screen and the N-screen model. */
  function MapRatio(value: int, fromLo: int, fromLen: int, toLo: int, toLen: int): int {
    toLo + Scaled(value - fromLo, Max(fromLen, 1), Max(toLen - 1, 0))
  }

  /** The fraction v/f, cut to the unit interval, of t, rounded. */
  function Scaled(v: int, f: int, t: int): int
    requires 1 <= f
  {
    RoundHalfAway(ClampUnit(v as real / f as real) * t as real)
  }

  /** The number of source pixels before `value`, cut to the source range. */
  function Offset(value: int, lo: int, len: int): (r: int)
    requires 0 <= len
    ensures 0 <= r <= len
  {
    Clamp(value - lo, 0, len)
  }

  /** n/d rounded to the nearest integer, halves up. */
  function RoundDiv(n: int, d: int): int
    requires 0 < d
  {
    (2 * n + d) / (2 * d)
  }

  lemma RealMulOrder(x: real, y: real, d: real)
    requires 0.0 < d
    ensures x < y <==> x * d < y * d
  {
    assert (y - x) * d == y * d - x * d;
  }

  lemma RealQuotientUnique(x: real, y: real, d: real)
    requires d != 0.0 && x * d == y
    ensures y / d == x
  {
  }

  lemma FloorOfQuotient(n: int, d: int, q: int)
    requires 0 < d && q * d <= n < (q + 1) * d
    ensures (n as real / d as real).Floor == q
  {
    var x := n as real / d as real;
    assert x * d as real == n as real;
    assert (q * d) as real == q as real * d as real;
    assert ((q + 1) * d) as real == (q + 1) as real * d as real;
    RealMulOrder(x, q as real, d as real);
    RealMulOrder(x, (q + 1) as real, d as real);
  }

  lemma RoundDivBounds(n: int, d: int)
    requires 0 < d
    ensures var q := RoundDiv(n, d); 2 * d * q <= 2 * n + d < 2 * d * q + 2 * d
  {
  }

  lemma ProductOfReals(u: int, t: int)
    ensures (u * t) as real == u as real * t as real
  {
  }

  /** (u/f) t + 1/2 as one quotient. */
  lemma HalfMoreQuotient(u: real, f: real, t: real)
    requires f > 0.0
    ensures u / f * t + 0.5 == (2.0 * (u * t) + f) / (2.0 * f)
  {
    var x := u / f;
    assert x * f == u;
    assert x * t * f == u * t;
    RealQuotientUnique(x * t + 0.5, 2.0 * (u * t) + f, 2.0 * f);
  }

  lemma NonNegativeProduct(x: real, t: real)
    requires x >= 0.0 && t >= 0.0
    ensures x * t >= 0.0
  {
    if t > 0.0 {
      RealMulOrder(x, 0.0, t);
    } else {
      assert x * t == 0.0;
    }
  }

  lemma NonNegativeQuotient(u: real, f: real)
    requires u >= 0.0 && f > 0.0
    ensures u / f >= 0.0
  {
    var x := u / f;
    assert x * f == u;
    RealMulOrder(x, 0.0, f);
  }

  lemma CastQuotient(u: int, f: int, t: int)
    requires 0 < f
    ensures u as real / f as real * t as real + 0.5 == (2 * (u * t) + f) as real / (2 * f) as real
  {
    ProductOfReals(u, t);
    HalfMoreQuotient(u as real, f as real, t as real);
    assert (2 * (u * t) + f) as real == 2.0 * (u as real * t as real) + f as real;
    assert (2 * f) as real == 2.0 * f as real;
  }

  lemma RoundOfQuotient(r: real, n: int, d: int)
    requires r >= 0.0 && 0 < d && r + 0.5 == n as real / d as real
    ensures RoundHalfAway(r) == n / d
  {
    var q := n / d;
    assert q * d <= n < q * d + d;
    assert (q + 1) * d == q * d + d;
    FloorOfQuotient(n, d, q);
  }

  /** The rounded real product is the integer division RoundDiv. */
  lemma RoundedProductIsRoundDiv(u: int, f: int, t: int)
    requires 0 <= u <= f && 0 < f && 0 <= t
    ensures RoundHalfAway(u as real / f as real * t as real) == RoundDiv(u * t, f)
  {
    var x := u as real / f as real;
    NonNegativeQuotient(u as real, f as real);
    NonNegativeProduct(x, t as real);
    CastQuotient(u, f, t);
    RoundOfQuotient(x * t as real, 2 * (u * t) + f, 2 * f);
  }

  lemma ClampUnitOfQuotient(v: int, f: int)
    requires 0 < f
    ensures ClampUnit(v as real / f as real) == Clamp(v, 0, f) as real / f as real
  {
    var x := v as real / f as real;
    assert x * f as real == v as real;
    RealMulOrder(x, 0.0, f as real);
    RealMulOrder(1.0, x, f as real);
    if v < 0 {
      assert x < 0.0;
      RealQuotientUnique(0.0, 0.0, f as real);
    } else if v > f {
      assert 1.0 < x && Clamp(v, 0, f) == f;
      RealQuotientUnique(1.0, f as real, f as real);
    } else {
      assert 0.0 <= x <= 1.0 && Clamp(v, 0, f) == v;
    }
  }

  lemma ScaledExact(v: int, f: int, t: int)
    requires 1 <= f && 0 <= t
    ensures Scaled(v, f, t) == RoundDiv(Clamp(v, 0, f) * t, f)
  {
    ClampUnitOfQuotient(v, f);
    RoundedProductIsRoundDiv(Clamp(v, 0, f), f, t);
  }

  /** The mapped coordinate is the exact quotient rounded half up. */
  lemma MapRatioExact(value: int, fromLo: int, fromLen: int, toLo: int, toLen: int)
    requires 1 <= fromLen && 1 <= toLen
    ensures MapRatio(value, fromLo, fromLen, toLo, toLen)
         == toLo + RoundDiv(Offset(value, fromLo, fromLen) * (toLen - 1), fromLen)
  {
    ScaledExact(value - fromLo, fromLen, toLen - 1);
  }

  lemma RoundDivMonotone(m: int, n: int, d: int)
    requires 0 < d && m <= n
    ensures RoundDiv(m, d) <= RoundDiv(n, d)
  {
    RoundDivBounds(m, d);
    RoundDivBounds(n, d);
    var p, q := RoundDiv(m, d), RoundDiv(n, d);
    assert 2 * d * p < 2 * d * q + 2 * d;
    assert 2 * d * (q + 1) == 2 * d * q + 2 * d;
    MulCancelLess(p, q + 1, 2 * d);
  }

  lemma MulCancelLess(a: int, b: int, d: int)
    requires 0 < d && d * a < d * b
    ensures a < b
  {
  }

  lemma MulMonotone(a: int, b: int, d: int)
    requires 0 <= d && a <= b
    ensures a * d <= b * d
  {
  }

  /** Every source coordinate, in range or not, lands on a pixel of the target. */
  lemma MapRatioInRange(value: int, fromLo: int, fromLen: int, toLo: int, toLen: int)
    requires 1 <= fromLen && 1 <= toLen
    ensures toLo <= MapRatio(value, fromLo, fromLen, toLo, toLen) <= toLo + toLen - 1
  {
    MapRatioExact(value, fromLo, fromLen, toLo, toLen);
    var u, t := Offset(value, fromLo, fromLen), toLen - 1;
    var q := RoundDiv(u * t, fromLen);
    MulMonotone(0, u, t);
    MulMonotone(u, fromLen, t);
    RoundDivMonotone(0, u * t, fromLen);
    RoundDivMonotone(u * t, fromLen * t, fromLen);
    RoundDivOfMultiple(t, fromLen);
    RoundDivOfMultiple(0, fromLen);
  }

  lemma QuotientUnique(n: int, d: int, q: int)
    requires 0 < d && q * d <= n < q * d + d
    ensures n / d == q
  {
    var p := n / d;
    assert p * d <= n < p * d + d;
    assert p * d < (q + 1) * d;
    assert q * d < (p + 1) * d;
    MulCancelLess(p, q + 1, d);
    MulCancelLess(q, p + 1, d);
  }

  lemma RoundDivOfMultiple(t: int, d: int)
    requires 0 < d
    ensures RoundDiv(d * t, d) == t
  {
    assert t * (2 * d) == 2 * (d * t);
    QuotientUnique(2 * (d * t) + d, 2 * d, t);
  }

  lemma MapRatioMonotone(v: int, w: int, fromLo: int, fromLen: int, toLo: int, toLen: int)
    requires 1 <= fromLen && 1 <= toLen && v <= w
    ensures MapRatio(v, fromLo, fromLen, toLo, toLen) <= MapRatio(w, fromLo, fromLen, toLo, toLen)
  {
    MapRatioExact(v, fromLo, fromLen, toLo, toLen);
    MapRatioExact(w, fromLo, fromLen, toLo, toLen);
    MulMonotone(Offset(v, fromLo, fromLen), Offset(w, fromLo, fromLen), toLen - 1);
    RoundDivMonotone(Offset(v, fromLo, fromLen) * (toLen - 1), Offset(w, fromLo, fromLen) * (toLen - 1), fromLen);
  }

  /**
   Mapping a pixel of a range of H pixels to one of h pixels and back moves it
   by a bounded amount, tighter upwards than downwards.
   */
  lemma {:induction false} RoundTripOffset(u: int, H: int, h: int)
    requires 0 <= u < H && 1 <= h
    ensures var q := RoundDiv(u * (h - 1), H);
            var back := RoundDiv(q * (H - 1), h);
            && 0 <= q < h
            && 2 * h * (u - back) < 3 * h + 3 * (H - 1)
            && 2 * h * (back - u) <= h + H - 1
  {
    var q := RoundDiv(u * (h - 1), H);
    var back := RoundDiv(q * (H - 1), h);
    RoundDivBounds(u * (h - 1), H);
    RoundDivBounds(q * (H - 1), h);
    MapRatioInRange(u, 0, H, 0, h);
    MapRatioExact(u, 0, H, 0, h);
    RoundTripUp(u, H, h, q, back);
    RoundTripDown(u, H, h, q, back);
  }

  lemma Products(a: int, H: int, q: int, T: int)
    ensures (2 * H * q) * T == H * (2 * (q * T))
    ensures (2 * a + H) * T == 2 * (a * T) + H * T
    ensures (2 * a - H) * T == 2 * (a * T) - H * T
  {
  }

  lemma ScaledSum(H: int, x: int, y: int)
    ensures H * (2 * x + y) == 2 * (H * x) + H * y
  {
  }

  lemma RoundTripUp(u: int, H: int, h: int, q: int, back: int)
    requires 0 <= u < H && 1 <= h && 0 <= q < h
    requires 2 * H * q <= 2 * (u * (h - 1)) + H
    requires 2 * h * back <= 2 * (q * (H - 1)) + h
    ensures 2 * h * (back - u) <= h + H - 1
  {
    ForwardGain(u, H, h, q);
    DistributeTwice(h, back, u);
  }

  lemma DistributeTwice(h: int, a: int, b: int)
    ensures 2 * h * (a - b) == 2 * h * a - 2 * (b * h)
  {
  }

  lemma ForwardGain(u: int, H: int, h: int, q: int)
    requires 0 <= u < H && 1 <= h
    requires 2 * H * q <= 2 * (u * (h - 1)) + H
    ensures 2 * (q * (H - 1)) <= 2 * (u * h) + H - 1
  {
    var T, a := H - 1, u * (h - 1);
    assert H * (2 * (q * T)) <= H * (2 * (u * h) + T) by {
      MulMonotone(2 * H * q, 2 * a + H, T);
      Products(a, H, q, T);
      LossyProduct(u, h, H);
      ScaledSum(H, u * h, T);
    }
    MulCancelLeq(2 * (q * T), 2 * (u * h) + T, H);
  }

  /** u (h-1)(H-1) lies between u h H - H (h+H-1) and u h H. */
  lemma LossyProduct(u: int, h: int, H: int)
    requires 0 <= u < H && 1 <= h
    ensures u * (h - 1) * (H - 1) <= H * (u * h)
    ensures H * (u * h) - H * (h + H - 1) <= u * (h - 1) * (H - 1)
  {
    assert (h - 1) * (H - 1) == h * H - (h + H - 1);
    assert u * (h - 1) * (H - 1) == u * ((h - 1) * (H - 1));
    assert u * (h * H - (h + H - 1)) == u * (h * H) - u * (h + H - 1);
    assert u * (h * H) == H * (u * h);
    MulMonotone(0, u, h + H - 1);
    MulMonotone(u, H, h + H - 1);
  }

  lemma MulCancelLeq(a: int, b: int, d: int)
    requires 0 < d && d * a <= d * b
    ensures a <= b
  {
  }

  lemma RoundTripDown(u: int, H: int, h: int, q: int, back: int)
    requires 0 <= u < H && 1 <= h && 0 <= q < h
    requires 2 * (u * (h - 1)) + H < 2 * H * q + 2 * H
    requires 2 * (q * (H - 1)) + h < 2 * h * back + 2 * h
    ensures 2 * h * (u - back) < 3 * h + 3 * (H - 1)
  {
    ForwardLoss(u, H, h, q);
    DistributeTwice(h, back, u);
    assert 2 * h * (u - back) == -(2 * h * (back - u));
  }

  lemma ForwardLoss(u: int, H: int, h: int, q: int)
    requires 0 <= u < H && 1 <= h
    requires 2 * (u * (h - 1)) + H < 2 * H * q + 2 * H
    ensures 2 * (u * h) - 2 * (h + H - 1) - (H - 1) <= 2 * (q * (H - 1))
  {
    var T, a := H - 1, u * (h - 1);
    assert H * (2 * (u * h) - 2 * (h + T) - T) <= H * (2 * (q * T)) by {
      MulMonotone(2 * a - H, 2 * H * q, T);
      Products(a, H, q, T);
      LossyProduct(u, h, H);
      TripleProduct(H, u * h, h + T, T);
    }
    MulCancelLeq(2 * (u * h) - 2 * (h + T) - T, 2 * (q * T), H);
  }

  lemma TripleProduct(H: int, x: int, y: int, z: int)
    ensures H * (2 * x - 2 * y - z) == 2 * (H * x) - 2 * (H * y) - H * z
  {
  }
}
