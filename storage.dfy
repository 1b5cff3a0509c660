/** Element storage types and their conversions to and from the working float precision.
  * f32 and f64 are both modelled as `real`; an f16 element type is kept abstract and reached
  * only through its conversion functions; u8 is the integer range [0, 255] with the crate's
  * explicit clamping and rounding. */
module Storage {
  import opened Trilinear

  /** An `Interpolate` implementation: how an element is produced from an f64 result and read
    * back as an f64. */
  datatype Interpolate<!T> = Interpolate(fromF64: real -> T, toF64: T -> real)

  /** The f64 implementation (both directions the identity). With reals standing in for floats,
    * the f32 implementation (`v as f32`, `self as f64`) is this one as well. */
  function ExactInterpolate(): Interpolate<real>
  {
    Interpolate(Exact, Exact)
  }

  /** The identity conversion between equal float types. */
  function Exact(v: real): real
  {
    v
  }

  /** Reading an element back and storing it again gives the element unchanged. */
  lemma ExactRoundTrip(v: real)
    ensures ExactInterpolate().fromF64(ExactInterpolate().toF64(v)) == v
  {}

  /** Conversions of an f16 element type H: `to_f32`, `f16::from_f32` (also the vector
    * conversion `_mm256_cvtps_ph`) and `f16::from_f64`. */
  datatype HalfFloat<!H> = HalfFloat(toF32: H -> real, fromF32: real -> H, fromF64: real -> H)

  /** An unsigned 8-bit element. */
  type byte = x: int | 0 <= x < 256

  function ByteToReal(b: byte): real
  {
    b as real
  }

  /** The affine u8 kernel's output conversion `result.clamp(0.0, 255.0) as u8`: clamp into the
    * byte range, then truncate toward zero (which is the floor, the value being non-negative). */
  function ByteFromAffine(r: real): (b: byte)
    ensures r <= 0.0 ==> b == 0
    ensures r >= 255.0 ==> b == 255
    ensures 0.0 <= r <= 255.0 ==> b as real <= r < b as real + 1.0
  {
    Floor(Clamp(r, 0.0, 255.0))
  }

  /** `f32::round`: to the nearest integer, halves away from zero. */
  function RoundHalfAway(v: real): (n: int)
    ensures v >= 0.0 ==> n as real - 0.5 <= v < n as real + 0.5
    ensures v < 0.0 ==> n as real - 0.5 < v <= n as real + 0.5
    ensures v >= 0.0 ==> n >= 0
    ensures v <= 0.0 ==> n <= 0
  {
    if v >= 0.0 then Floor(v + 0.5) else -Floor(-v + 0.5)
  }

  /** The warp u8 kernel's output conversion `value.round().clamp(0.0, 255.0) as u8`. */
  function ByteFromWarp(v: real): (b: byte)
    ensures v <= 0.0 ==> b == 0
    ensures v >= 255.0 ==> b == 255
    ensures 0.0 <= v <= 255.0 ==> b as real - 0.5 <= v < b as real + 0.5
  {
    var n := RoundHalfAway(v);
    if n < 0 then 0 else if n > 255 then 255 else n
  }

  /** A value halfway between two bytes is stored as the upper one (254.5 becomes 255). */
  lemma ByteFromWarpTie(k: byte)
    requires k < 255
    ensures ByteFromWarp(k as real + 0.5) == k + 1
  {}

  /** A byte survives the warp kernel's round trip through f32 (`cval as f32`, then rounding). */
  lemma ByteFromWarpOfByte(b: byte)
    ensures ByteFromWarp(ByteToReal(b)) == b
  {
    assert Floor(b as real + 0.5) == b;
  }

  /** So does a byte stored through the affine kernel's conversion. */
  lemma ByteFromAffineOfByte(b: byte)
    ensures ByteFromAffine(ByteToReal(b)) == b
  {}
}
