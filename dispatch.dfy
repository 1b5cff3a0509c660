/** Run-time kernel selection of the public entry points: AVX-512 when the CPU has `avx512f`,
  * otherwise AVX2 when it has `avx2` and `fma` (and `f16c` for the f16 element type),
  * otherwise the scalar kernel. */
module Dispatch {

  /** The answers of `is_x86_feature_detected!` for the four features the crate asks about.
    * A target other than x86-64 compiles the checks out, which is the all-false record. */
  datatype Caps = Caps(avx512f: bool, avx2: bool, fma: bool, f16c: bool)

  const NoSimd: Caps := Caps(false, false, false, false)

  /** The three kernel families; exactly one of them runs per call. */
  datatype Backend = Avx512 | Avx2 | Scalar

  /** The dispatch chain of `affine_transform_3d_*` and `apply_warp_3d_*`; `needsF16C` is set
    * for the f16 entry points, whose AVX2 branch also tests `f16c`. */
  function SelectBackend(caps: Caps, needsF16C: bool): Backend
  {
    if caps.avx512f then Avx512
    else if caps.avx2 && caps.fma && (!needsF16C || caps.f16c) then Avx2
    else Scalar
  }

  /** What a kernel family needs from the CPU. */
  predicate Usable(caps: Caps, b: Backend, needsF16C: bool)
  {
    match b
    case Avx512 => caps.avx512f
    case Avx2 => caps.avx2 && caps.fma && (needsF16C ==> caps.f16c)
    case Scalar => true
  }

  /** The preference order: AVX-512 over AVX2 over scalar. */
  function Rank(b: Backend): nat
  {
    match b
    case Avx512 => 2
    case Avx2 => 1
    case Scalar => 0
  }

  /** The chain picks the most preferred family the CPU can run. */
  lemma SelectBackendIsBest(caps: Caps, needsF16C: bool)
    ensures Usable(caps, SelectBackend(caps, needsF16C), needsF16C)
    ensures forall b: Backend | Usable(caps, b, needsF16C) ::
              Rank(b) <= Rank(SelectBackend(caps, needsF16C))
  {}

  /** Every feature of `a` is a feature of `b`. */
  predicate CapsWithin(a: Caps, b: Caps)
  {
    (a.avx512f ==> b.avx512f) && (a.avx2 ==> b.avx2) && (a.fma ==> b.fma) && (a.f16c ==> b.f16c)
  }

  /** A CPU with more features never falls back to a less preferred family. */
  lemma SelectBackendMonotone(a: Caps, b: Caps, needsF16C: bool)
    requires CapsWithin(a, b)
    ensures Rank(SelectBackend(a, needsF16C)) <= Rank(SelectBackend(b, needsF16C))
  {}

  /** The f16 entry points ask for more: a CPU that runs their AVX2 branch runs it for the
    * other element types too, and the reverse fails only for want of `f16c`. */
  lemma F16DemandsMore(caps: Caps)
    ensures Rank(SelectBackend(caps, true)) <= Rank(SelectBackend(caps, false))
    ensures SelectBackend(caps, true) != SelectBackend(caps, false)
            <==> !caps.avx512f && caps.avx2 && caps.fma && !caps.f16c
  {}

  /** Without any SIMD feature (or off x86-64) the scalar kernel runs. */
  lemma NoSimdIsScalar(needsF16C: bool)
    ensures SelectBackend(NoSimd, needsF16C) == Scalar
  {}
}
