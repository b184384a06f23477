/**
 * Transformations between a domain interval and a range interval (src/scale.rs).
 * Doubles are modelled as reals, so the maps are exact.
 */
module Scales {

  /** A Rust `Range<f64>`, `start..end`; nothing forces `start < end`. */
  datatype Interval = Interval(start: real, end: real)

  /** The mapping between the domain and the range of a function. */
  datatype Scale = Scale(domain: Interval, range: Interval)

  /** Both intervals have positive width: the setting in which the scale is a bijection. */
  predicate Proper(s: Scale) {
    s.domain.start < s.domain.end && s.range.start < s.range.end
  }

  /** `v.max(lo).min(hi)`, the clamp both directions of a scale end with. */
  function Clamp(v: real, lo: real, hi: real): (r: real)
    ensures lo <= hi ==> lo <= r <= hi
    ensures lo <= v <= hi ==> r == v
    ensures lo <= hi && v < lo ==> r == lo
    ensures lo <= hi && hi < v ==> r == hi
    ensures hi < lo ==> r == hi
  {
    var m := if v < lo then lo else v;
    if m < hi then m else hi
  }

  /** `Scale::new`: the scale that maps `domain` onto `range`. */
  function New(domain: Interval, range: Interval): (s: Scale)
    ensures s.domain == domain && s.range == range
  {
    Scale(domain, range)
  }

  /**
   * `Scale::linear`: translates a domain value to the range scale, clamped into the range.
   * The range must have positive width (every caller passes `0..width` or `0..height`).
   * A zero-width domain divides by zero: in IEEE arithmetic the quotient is NaN when
   * `x` is the domain's start and an infinity otherwise, and the clamp turns NaN and
   * negative infinity into `range.start` and positive infinity into `range.end`.
   */
  function Linear(s: Scale, x: real): (r: real)
    requires s.range.start < s.range.end
    ensures s.range.start <= r <= s.range.end
  {
    var width := s.domain.end - s.domain.start;
    if width == 0.0 then
      (if x > s.domain.start then s.range.end else s.range.start)
    else
      var p := (x - s.domain.start) / width;
      Clamp(s.range.start + p * (s.range.end - s.range.start), s.range.start, s.range.end)
  }

  /**
   * `Scale::inv_linear`: translates a range value back to the domain scale, clamped into
   * the domain (a reversed domain clamps everything to its end, as `max` then `min` do).
   */
  function InvLinear(s: Scale, v: real): (r: real)
    requires s.range.start < s.range.end
    ensures s.domain.start <= s.domain.end ==> s.domain.start <= r <= s.domain.end
    ensures s.domain.end < s.domain.start ==> r == s.domain.end
  {
    var p := (v - s.range.start) / (s.range.end - s.range.start);
    Clamp(s.domain.start + p * (s.domain.end - s.domain.start), s.domain.start, s.domain.end)
  }

  /** The ends of the domain go to the ends of the range. */
  lemma LinearAtDomainEnds(s: Scale)
    requires Proper(s)
    ensures Linear(s, s.domain.start) == s.range.start
    ensures Linear(s, s.domain.end) == s.range.end
  {
    var w := s.domain.end - s.domain.start;
    assert (s.domain.end - s.domain.start) / w == 1.0;
  }

  /** Values left of the domain go to `range.start`, values right of it to `range.end`. */
  lemma LinearClampsOutsideDomain(s: Scale, x: real)
    requires Proper(s)
    ensures x <= s.domain.start ==> Linear(s, x) == s.range.start
    ensures s.domain.end <= x ==> Linear(s, x) == s.range.end
  {
    var w := s.domain.end - s.domain.start;
    var rw := s.range.end - s.range.start;
    var p := (x - s.domain.start) / w;
    if x <= s.domain.start {
      QuotientBounds(x - s.domain.start, w);
      assert p * rw <= 0.0;
    }
    if s.domain.end <= x {
      QuotientBounds(x - s.domain.start, w);
      assert p * rw >= 1.0 * rw;
    }
  }

  /** Values left of the range go to `domain.start`, values right of it to `domain.end`. */
  lemma InvLinearClampsOutsideRange(s: Scale, v: real)
    requires Proper(s)
    ensures v <= s.range.start ==> InvLinear(s, v) == s.domain.start
    ensures s.range.end <= v ==> InvLinear(s, v) == s.domain.end
  {
    var w := s.range.end - s.range.start;
    var dw := s.domain.end - s.domain.start;
    var p := (v - s.range.start) / w;
    InvLinearUnclamped(s, v);
    if v <= s.range.start {
      QuotientBounds(v - s.range.start, w);
      assert p * dw <= 0.0;
    }
    if s.range.end <= v {
      QuotientBounds(v - s.range.start, w);
      assert p * dw >= 1.0 * dw;
    }
  }

  /** Sign and size of `a / w` for a positive divisor. */
  lemma QuotientBounds(a: real, w: real)
    requires w > 0.0
    ensures a <= 0.0 ==> a / w <= 0.0
    ensures a >= w ==> a / w >= 1.0
    ensures 0.0 <= a <= w ==> 0.0 <= a / w <= 1.0
  {
    var q := a / w;
    assert q * w == a;
  }

  /** On a proper scale `linear` is monotone non-decreasing. */
  lemma LinearMonotone(s: Scale, x: real, y: real)
    requires Proper(s)
    requires x <= y
    ensures Linear(s, x) <= Linear(s, y)
  {
    AffineMonotone(s.domain.start, s.domain.end, s.range.start, s.range.end, x, y);
    LinearOfProperScale(s, x);
    LinearOfProperScale(s, y);
    ClampMonotone(s.range.start + (x - s.domain.start) / (s.domain.end - s.domain.start) * (s.range.end - s.range.start),
                  s.range.start + (y - s.domain.start) / (s.domain.end - s.domain.start) * (s.range.end - s.range.start),
                  s.range.start, s.range.end);
  }

  /** On a proper scale `linear` is the clamped affine map. */
  lemma LinearOfProperScale(s: Scale, x: real)
    requires Proper(s)
    ensures Linear(s, x) == Clamp(s.range.start + (x - s.domain.start) / (s.domain.end - s.domain.start)
                                    * (s.range.end - s.range.start), s.range.start, s.range.end)
  {
  }

  /** Clamping keeps the order of two values. */
  lemma ClampMonotone(a: real, b: real, lo: real, hi: real)
    requires a <= b
    ensures Clamp(a, lo, hi) <= Clamp(b, lo, hi)
  {
  }

  /** The affine map from `[ds, de]` to `[rs, re]` keeps the order of its arguments. */
  lemma AffineMonotone(ds: real, de: real, rs: real, re: real, x: real, y: real)
    requires ds < de && rs < re && x <= y
    ensures rs + (x - ds) / (de - ds) * (re - rs) <= rs + (y - ds) / (de - ds) * (re - rs)
  {
    ProportionMonotone(x - ds, y - ds, de - ds, re - rs);
  }

  /** `a / w * c` grows with `a` for positive `w` and `c`. */
  lemma ProportionMonotone(a: real, b: real, w: real, c: real)
    requires a <= b && 0.0 < w && 0.0 < c
    ensures a / w * c <= b / w * c
  {
    var p, q := a / w, b / w;
    assert p * w == a && q * w == b;
    ScaledOrder(p, q, w);
    ScaledOrder(p, q, c);
  }

  /** Multiplying by a positive factor keeps the order of two reals. */
  lemma ScaledOrder(a: real, b: real, c: real)
    requires c > 0.0
    ensures a <= b <==> a * c <= b * c
    ensures a < b <==> a * c < b * c
  {
    assert b * c - a * c == (b - a) * c;
  }

  /** Domain values survive the trip to the range and back. */
  lemma InvLinearOfLinear(s: Scale, x: real)
    requires Proper(s)
    requires s.domain.start <= x <= s.domain.end
    ensures InvLinear(s, Linear(s, x)) == x
  {
    LinearOfProperScale(s, x);
    AffineRoundTrip(s.domain.start, s.domain.end, s.range.start, s.range.end, x);
    var r := s.range.start + (x - s.domain.start) / (s.domain.end - s.domain.start) * (s.range.end - s.range.start);
    assert Linear(s, x) == r;
    InvLinearUnclamped(s, r);
  }

  /** Range values survive the trip to the domain and back. */
  lemma LinearOfInvLinear(s: Scale, v: real)
    requires Proper(s)
    requires s.range.start <= v <= s.range.end
    ensures Linear(s, InvLinear(s, v)) == v
  {
    AffineRoundTrip(s.range.start, s.range.end, s.domain.start, s.domain.end, v);
    InvLinearUnclamped(s, v);
    var d := s.domain.start + (v - s.range.start) / (s.range.end - s.range.start) * (s.domain.end - s.domain.start);
    assert InvLinear(s, v) == d;
    LinearOfProperScale(s, d);
  }

  /** `inv_linear` is the clamped affine map from the range back to the domain. */
  lemma InvLinearUnclamped(s: Scale, v: real)
    requires s.range.start < s.range.end
    ensures InvLinear(s, v) == Clamp(s.domain.start + (v - s.range.start) / (s.range.end - s.range.start)
                                       * (s.domain.end - s.domain.start), s.domain.start, s.domain.end)
  {
  }

  /**
   * The affine map from `[ds, de]` to `[rs, re]` sends `x` inside `[rs, re]`, and the map
   * from `[rs, re]` back to `[ds, de]` returns it to `x`.
   */
  lemma AffineRoundTrip(ds: real, de: real, rs: real, re: real, x: real)
    requires ds < de && rs < re && ds <= x <= de
    ensures var r := rs + (x - ds) / (de - ds) * (re - rs);
      rs <= r <= re && ds + (r - rs) / (re - rs) * (de - ds) == x
  {
    var w, rw := de - ds, re - rs;
    var p := (x - ds) / w;
    QuotientBounds(x - ds, w);
    ScaledOrder(0.0, p, rw);
    ScaledOrder(p, 1.0, rw);
    var r := rs + p * rw;
    assert (r - rs) / rw == p;
    assert p * w == x - ds;
  }

  /** The documented example: on `0..10 -> -1..1`, `linear(1.0) == -0.8`. */
  lemma LinearExample()
    ensures Linear(New(Interval(0.0, 10.0), Interval(-1.0, 1.0)), 1.0) == -0.8
  {
    assert (1.0 - 0.0) / (10.0 - 0.0) == 0.1;
  }

  /** The documented example: on `0..10 -> -1..1`, `inv_linear(0.1) == 5.5`. */
  lemma InvLinearExample()
    ensures InvLinear(New(Interval(0.0, 10.0), Interval(-1.0, 1.0)), 0.1) == 5.5
  {
    assert (0.1 - -1.0) / (1.0 - -1.0) == 0.55;
  }
}
