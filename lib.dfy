/** The crate's public affine entry points: `affine_transform_3d_{f32,f64,f16}` (an output of
  * the input's shape prefilled with the fill, then one kernel chosen at run time),
  * the generic `affine_transform_3d` (always the scalar kernel) and the point map
  * `map_coordinates_3d_f32`. */
module Lib {
  import opened Layout
  import opened Trilinear
  import opened Geometry
  import opened Storage
  import opened Dispatch
  import opened ScalarAffine
  import opened Avx2

  /** `Array3::from_elem(shape, v)`, flat: every voxel holds v. */
  function Prefill<T>(n: nat, v: T): (s: seq<T>)
    ensures |s| == n && forall i | 0 <= i < n :: s[i] == v
  {
    if n == 0 then [] else Prefill(n - 1, v) + [v]
  }

  /** What the AVX2 branch of an entry point returns for an input of shape d×h×w: the untouched
    * prefill when the input is tiny, the kernel's output otherwise. */
  function Avx2Output<T>(input: Volume<T>, load: T -> real, store: real -> T, fill: T,
                         a: AffineMatrix3D, shift: Shift, lanes: nat): (out: seq<T>)
    requires input.Valid() && lanes >= 1
    ensures |out| == |input.data|
    ensures Tiny(input) ==> forall i | 0 <= i < |out| :: out[i] == fill
  {
    if Tiny(input) then Prefill(|input.data|, fill)
    else Avx2Volume(input, load, store, fill, a, shift, lanes, input.d, input.h, input.w)
  }

  /** The strict rule accepts no point of a tiny input, so wherever it accepts, the AVX2 branch
    * and the scalar branch return the same voxel. */
  lemma Avx2OutputAgreesWithScalar<T>(input: Volume<T>, load: T -> real, store: real -> T,
                                      fill: T, a: AffineMatrix3D, shift: Shift, lanes: nat, i: nat)
    requires input.Valid() && lanes >= 1 && i < |input.data|
    requires var c := Unflat(i, input.h, input.w);
             StrictInside(input, SourcePoint(a, shift, c.z, c.y, c.x))
    ensures Avx2Output(input, load, store, fill, a, shift, lanes)[i]
         == AffineVolume(input, load, store, fill, a, shift, input.d, input.h, input.w)[i]
  {
    var c := Unflat(i, input.h, input.w);
    var p := SourcePoint(a, shift, c.z, c.y, c.x);
    assert 0 <= Floor(p.z) < input.d - 1 && 0 <= Floor(p.y) < input.h - 1
           && 0 <= Floor(p.x) < input.w - 1;
    Avx2VolumeAgreesWithScalar(input, load, store, fill, a, shift, lanes,
                               input.d, input.h, input.w, i);
  }

  /** `affine_transform_3d_f32`: prefill with `cval as f32`, then the AVX-512, AVX2 or scalar
    * kernel as the CPU allows. */
  method AffineTransform3DF32(input: Volume<real>, a: AffineMatrix3D, shift: Shift, cval: real,
                              caps: Caps) returns (output: array<real>, backend: Backend)
    requires input.Valid()
    ensures fresh(output) && output.Length == |input.data|
    ensures backend == SelectBackend(caps, false)
    ensures backend == Avx2 ==> output[..] == Avx2Output(input, Exact, Exact, cval, a, shift, 8)
    ensures backend == Scalar
            ==> output[..] == AffineVolume(input, Exact, Exact, cval, a, shift,
                                           input.d, input.h, input.w)
  {
    output := new real[|input.data|](_ => Exact(cval));
    backend := SelectBackend(caps, false);
    if backend == Avx2 {
      Trilinear3DF32Avx2(input, a, shift, cval, output, input.d, input.h, input.w);
    } else if backend == Scalar {
      Trilinear3DScalar(input, ExactInterpolate(), a, shift, cval, output,
                        input.d, input.h, input.w);
    }
  }

  /** `affine_transform_3d_f64`: as the f32 entry point, with the 4-lane AVX2 kernel. */
  method AffineTransform3DF64(input: Volume<real>, a: AffineMatrix3D, shift: Shift, cval: real,
                              caps: Caps) returns (output: array<real>, backend: Backend)
    requires input.Valid()
    ensures fresh(output) && output.Length == |input.data|
    ensures backend == SelectBackend(caps, false)
    ensures backend == Avx2 ==> output[..] == Avx2Output(input, Exact, Exact, cval, a, shift, 4)
    ensures backend == Scalar
            ==> output[..] == AffineVolume(input, Exact, Exact, cval, a, shift,
                                           input.d, input.h, input.w)
  {
    output := new real[|input.data|](_ => cval);
    backend := SelectBackend(caps, false);
    if backend == Avx2 {
      Trilinear3DF64Avx2(input, a, shift, cval, output, input.d, input.h, input.w);
    } else if backend == Scalar {
      Trilinear3DScalar(input, ExactInterpolate(), a, shift, cval, output,
                        input.d, input.h, input.w);
    }
  }

  /** `affine_transform_3d_f16`: prefill with `f16::from_f64(cval)`; the AVX2 branch also needs
    * `f16c`, and the scalar branch computes in f32. */
  method AffineTransform3DF16<H>(input: Volume<H>, half: HalfFloat<H>, a: AffineMatrix3D,
                                 shift: Shift, cval: real, caps: Caps)
    returns (output: array<H>, backend: Backend)
    requires input.Valid()
    ensures fresh(output) && output.Length == |input.data|
    ensures backend == SelectBackend(caps, true)
    ensures backend == Avx2
            ==> output[..] == Avx2Output(input, half.toF32, half.fromF32, half.fromF64(cval),
                                         a, shift, 8)
    ensures backend == Scalar
            ==> output[..] == AffineVolume(input, half.toF32, half.fromF32, half.fromF64(cval),
                                           a, shift, input.d, input.h, input.w)
  {
    output := new H[|input.data|](_ => half.fromF64(cval));
    backend := SelectBackend(caps, true);
    if backend == Avx2 {
      Trilinear3DF16Avx2(input, half, a, shift, cval, output, input.d, input.h, input.w);
    } else if backend == Scalar {
      Trilinear3DF16Scalar(input, half, a, shift, cval, output, input.d, input.h, input.w);
    }
  }

  /** `affine_transform_3d` for any `Interpolate` element type: prefill with `from_f64(cval)`,
    * then always the scalar kernel. */
  method AffineTransform3D<T>(input: Volume<T>, conv: Interpolate<T>, a: AffineMatrix3D,
                              shift: Shift, cval: real) returns (output: array<T>)
    requires input.Valid()
    ensures fresh(output) && output.Length == |input.data|
    ensures output[..] == AffineVolume(input, conv.toF64, conv.fromF64, conv.fromF64(cval),
                                       a, shift, input.d, input.h, input.w)
  {
    output := new T[|input.data|](_ => conv.fromF64(cval));
    Trilinear3DScalar(input, conv, a, shift, cval, output, input.d, input.h, input.w);
  }

  /** `map_coordinates_3d_f32`: the three coordinate slices zipped and mapped through
    * `trilinear_interp_f32` with the fill `cval as f32`; the slices must have one length
    * (`assert_eq!`). */
  function MapCoordinates3DF32(input: Volume<real>, zs: seq<real>, ys: seq<real>, xs: seq<real>,
                               cval: real): (r: seq<real>)
    requires input.Valid() && |zs| == |ys| == |xs|
    ensures |r| == |zs|
    ensures forall i | 0 <= i < |r| :: r[i] == TrilinearInterpF32(input, zs[i], ys[i], xs[i], cval)
  {
    if |zs| == 0 then []
    else [TrilinearInterpF32(input, zs[0], ys[0], xs[0], cval)]
         + MapCoordinates3DF32(input, zs[1..], ys[1..], xs[1..], cval)
  }

  /** Mapping the source points of an affine transform, in row-major output order, gives the
    * scalar kernel's output: `map_coordinates` and `affine_transform` share one interpolator. */
  lemma MapCoordinatesAtSourcePoints(input: Volume<real>, a: AffineMatrix3D, shift: Shift,
                                     cval: real, od: nat, oh: nat, ow: nat,
                                     zs: seq<real>, ys: seq<real>, xs: seq<real>)
    requires input.Valid()
    requires |zs| == od * oh * ow && |ys| == od * oh * ow && |xs| == od * oh * ow
    requires forall i | 0 <= i < od * oh * ow ::
               var c := Unflat(i, oh, ow);
               Point3(zs[i], ys[i], xs[i]) == SourcePoint(a, shift, c.z, c.y, c.x)
    ensures MapCoordinates3DF32(input, zs, ys, xs, cval)
         == AffineVolume(input, Exact, Exact, cval, a, shift, od, oh, ow)
  {
    var r := MapCoordinates3DF32(input, zs, ys, xs, cval);
    var spec := AffineVolume(input, Exact, Exact, cval, a, shift, od, oh, ow);
    forall i | 0 <= i < od * oh * ow
      ensures r[i] == spec[i]
    {
      AffineVolumeCells(input, Exact, Exact, cval, a, shift, od, oh, ow, i);
      var c := Unflat(i, oh, ow);
      assert Point3(zs[i], ys[i], xs[i]) == SourcePoint(a, shift, c.z, c.y, c.x);
    }
  }
}
