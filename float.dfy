/**
 * The few facts about IEEE-754 doubles that the plotting code relies on, stated over
 * reals: `f64::round`, `f64::is_normal` and the saturating `as u32` cast.
 */
module Float {

  /** Largest value of Rust's `u32`. */
  const U32Max: nat := 0xFFFF_FFFF

  /** Values of Rust's `u32` (canvas sizes and dot coordinates). */
  type U32 = x: nat | x <= U32Max

  /** `2^1022 = 4 * 16^255`, written out. */
  const TwoTo1022: nat := 0x4000_0000_0000_0000_0000_0000_0000_0000_0000_0000_0000_0000_0000_0000_0000_0000_0000_0000_0000_0000_0000_0000_0000_0000_0000_0000_0000_0000_0000_0000_0000_0000_0000_0000_0000_0000_0000_0000_0000_0000_0000_0000_0000_0000_0000_0000_0000_0000_0000_0000_0000_0000_0000_0000_0000_0000_0000_0000_0000_0000_0000_0000_0000_0000

  /** The smallest positive normal double, 2^-1022. */
  function MinPositiveNormal(): (r: real)
    ensures 0.0 < r <= 1.0
  {
    1.0 / TwoTo1022 as real
  }

  /**
   * `f64::is_normal`: neither zero nor subnormal. Over reals there is no NaN and no
   * infinity, so what is left is the distance from zero.
   */
  predicate IsNormal(y: real)
    ensures IsNormal(y) ==> y != 0.0
    ensures -MinPositiveNormal() < y < MinPositiveNormal() ==> !IsNormal(y)
    ensures y <= -1.0 || 1.0 <= y ==> IsNormal(y)
  {
    y <= -MinPositiveNormal() || MinPositiveNormal() <= y
  }

  /** `f64::round`: the nearest integer, halves rounded away from zero. */
  function Round(v: real): (r: int)
    ensures -0.5 <= r as real - v <= 0.5
    ensures v >= 0.0 ==> r >= 0
  {
    if v >= 0.0 then (v + 0.5).Floor else -((0.5 - v).Floor)
  }

  /** `v as u32`: truncation toward zero, saturating at both ends of `u32`. */
  function CastU32(v: real): (r: U32)
    ensures 0.0 <= v <= U32Max as real ==> r as real <= v < r as real + 1.0
    ensures v <= 0.0 ==> r == 0
  {
    if v <= 0.0 then 0 else if v >= U32Max as real then U32Max else v.Floor
  }
}
