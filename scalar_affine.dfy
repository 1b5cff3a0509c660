/** The portable (scalar) affine resampling path: the point interpolator `trilinear_interp_f32`
  * and the triple-loop kernels `trilinear_3d_scalar`, `trilinear_3d_f16_scalar` and
  * `trilinear_3d_u8_scalar`, which differ only in the element conversions. */
module ScalarAffine {
  import opened Wrappers
  import opened Layout
  import opened Trilinear
  import opened Geometry
  import opened Storage

  /** `trilinear_interp_f32`: the loose lookup of one point, or `cval` when it is rejected. */
  function TrilinearInterpF32(v: Volume<real>, z: real, y: real, x: real, cval: real): (r: real)
    requires v.Valid()
    ensures !LooseInside(v, Point3(z, y, x)) ==> r == cval
    ensures LooseInside(v, Point3(z, y, x)) ==> Some(r) == SampleLoose(v, Exact, Point3(z, y, x))
  {
    SampleLoose(v, Exact, Point3(z, y, x)).GetOr(cval)
  }

  /** 0.5 splits into floor 0 and fraction 0.5. */
  lemma HalfSplits()
    ensures Floor(0.5) == 0 && Frac(0.5) == 0.5
  {}

  /** A volume whose first unit cell holds 0 … 7 (in the order 000, 001, …, 111) has the mean
    * 3.5 at that cell's centre (0.5, 0.5, 0.5), whatever its size and its other voxels. */
  lemma InterpF32AtCellCentre(v: Volume<real>)
    requires v.Valid() && v.d >= 2 && v.h >= 2 && v.w >= 2
    requires Voxel(v, 0, 0, 0) == 0.0 && Voxel(v, 0, 0, 1) == 1.0
    requires Voxel(v, 0, 1, 0) == 2.0 && Voxel(v, 0, 1, 1) == 3.0
    requires Voxel(v, 1, 0, 0) == 4.0 && Voxel(v, 1, 0, 1) == 5.0
    requires Voxel(v, 1, 1, 0) == 6.0 && Voxel(v, 1, 1, 1) == 7.0
    ensures TrilinearInterpF32(v, 0.5, 0.5, 0.5, 0.0) == 3.5
  {
    HalfSplits();
    SampleLooseAtCellCentre(v, Exact, Point3(0.5, 0.5, 0.5));
  }

  /** A point one voxel before the first plane, row or column is rejected and yields `cval`. */
  lemma InterpF32OutOfBounds(v: Volume<real>, cval: real)
    requires v.Valid()
    ensures TrilinearInterpF32(v, -1.0, 0.0, 0.0, cval) == cval
    ensures TrilinearInterpF32(v, 0.0, -1.0, 0.0, cval) == cval
    ensures TrilinearInterpF32(v, 0.0, 0.0, -1.0, cval) == cval
  {
    assert Floor(-1.0) == -1;
  }

  // ---------------------------------------------------------------- the affine kernel's result

  /** Output voxel c of an affine resampling: the stored blend at its source point, or the fill
    * element when the loose rule rejects that point. */
  function AffineCell<T>(input: Volume<T>, load: T -> real, store: real -> T, fill: T,
                         a: AffineMatrix3D, shift: Shift, c: Cell): T
    requires input.Valid()
  {
    match SampleLoose(input, load, SourcePoint(a, shift, c.z, c.y, c.x))
    case None => fill
    case Some(r) => store(r)
  }

  /** The whole od×oh×ow output, flat and row-major. */
  function AffineVolume<T>(input: Volume<T>, load: T -> real, store: real -> T, fill: T,
                           a: AffineMatrix3D, shift: Shift, od: nat, oh: nat, ow: nat): (out: seq<T>)
    requires input.Valid()
    ensures |out| == od * oh * ow
  {
    if oh == 0 || ow == 0 then
      assert od * oh * ow == 0;
      []
    else
      seq(od * oh * ow, i requires 0 <= i < od * oh * ow =>
            AffineCell(input, load, store, fill, a, shift, Unflat(i, oh, ow)))
  }

  /** Voxel (z, y, x) of the output holds that voxel's cell value. */
  lemma AffineVolumeAt<T>(input: Volume<T>, load: T -> real, store: real -> T, fill: T,
                          a: AffineMatrix3D, shift: Shift, od: nat, oh: nat, ow: nat,
                          z: nat, y: nat, x: nat)
    requires input.Valid() && z < od && y < oh && x < ow
    ensures 0 <= Flat(z, y, x, oh, ow) < od * oh * ow
    ensures AffineVolume(input, load, store, fill, a, shift, od, oh, ow)[Flat(z, y, x, oh, ow)]
         == AffineCell(input, load, store, fill, a, shift, Cell(z, y, x))
  {
    FlatInBounds(z, y, x, od, oh, ow);
    UnflatFlat(z, y, x, oh, ow);
  }

  /** Every output voxel is the cell value at its own coordinates, and no other value. */
  lemma AffineVolumeCells<T>(input: Volume<T>, load: T -> real, store: real -> T, fill: T,
                             a: AffineMatrix3D, shift: Shift, od: nat, oh: nat, ow: nat, i: nat)
    requires input.Valid() && i < od * oh * ow
    ensures oh > 0 && ow > 0 && InBox(Unflat(i, oh, ow), od, oh, ow)
    ensures AffineVolume(input, load, store, fill, a, shift, od, oh, ow)[i]
         == AffineCell(input, load, store, fill, a, shift, Unflat(i, oh, ow))
  {
    FlatUnflat(i, od, oh, ow);
  }

  // ---------------------------------------------------------------- what the kernel computes

  /** An integer scaling (k_z, k_y, k_x) with an integer shift (t_z, t_y, t_x) reads voxel
    * (k_z*z + t_z, k_y*y + t_y, k_x*x + t_x) without blending, or writes the fill when that
    * voxel is off the input. It covers the identity, translation and down-scaling cases. */
  lemma AffineCellOnGrid<T>(input: Volume<T>, load: T -> real, store: real -> T, fill: T,
                            kz: int, ky: int, kx: int, tz: int, ty: int, tx: int, c: Cell)
    requires input.Valid()
    ensures var sz, sy, sx := kz * c.z + tz, ky * c.y + ty, kx * c.x + tx;
            AffineCell(input, load, store, fill,
                       Scale(kz as real, ky as real, kx as real), [tz as real, ty as real, tx as real], c)
              == if 0 <= sz < input.d && 0 <= sy < input.h && 0 <= sx < input.w
                 then store(load(Voxel(input, sz, sy, sx)))
                 else fill
  {
    hide SampleLoose, SourcePoint, Voxel, Scale;
    var sz, sy, sx := kz * c.z + tz, ky * c.y + ty, kx * c.x + tx;
    var a := Scale(kz as real, ky as real, kx as real);
    var shift: Shift := [tz as real, ty as real, tx as real];
    ScaleSourcePoint(kz as real, ky as real, kx as real, shift, c.z, c.y, c.x);
    assert SourcePoint(a, shift, c.z, c.y, c.x) == Point3(sz as real, sy as real, sx as real);
    SampleLooseAtGridPoint(input, load, sz, sy, sx);
  }

  /** The identity matrix with no shift copies the input voxel for voxel, provided storing a
    * loaded element gives the element back (it does for f32 and f64). */
  lemma AffineIdentityCopies<T>(input: Volume<T>, load: T -> real, store: real -> T, fill: T)
    requires input.Valid()
    requires forall e :: store(load(e)) == e
    ensures AffineVolume(input, load, store, fill, Identity(), [0.0, 0.0, 0.0],
                         input.d, input.h, input.w) == input.data
  {
    var out := AffineVolume(input, load, store, fill, Identity(), [0.0, 0.0, 0.0],
                            input.d, input.h, input.w);
    assert Identity() == Scale(1 as real, 1 as real, 1 as real);
    forall i | 0 <= i < |input.data|
      ensures out[i] == input.data[i]
    {
      AffineVolumeCells(input, load, store, fill, Identity(), [0.0, 0.0, 0.0],
                        input.d, input.h, input.w, i);
      var c := Unflat(i, input.h, input.w);
      FlatUnflat(i, input.d, input.h, input.w);
      AffineCellOnGrid(input, load, store, fill, 1, 1, 1, 0, 0, 0, c);
    }
  }

  /** A shift of (0.5, 0.5, 0.5) under the identity reads the centre of the unit cell whose
    * lower corner is the output voxel: the mean of its eight corners, when the whole cell is on
    * the input. */
  lemma AffineHalfVoxelShift<T>(input: Volume<T>, load: T -> real, store: real -> T, fill: T,
                                z: nat, y: nat, x: nat)
    requires input.Valid() && z + 1 < input.d && y + 1 < input.h && x + 1 < input.w
    ensures AffineCell(input, load, store, fill, Identity(), [0.5, 0.5, 0.5], Cell(z, y, x))
         == store((load(Voxel(input, z, y, x)) + load(Voxel(input, z, y, x + 1))
                   + load(Voxel(input, z, y + 1, x)) + load(Voxel(input, z, y + 1, x + 1))
                   + load(Voxel(input, z + 1, y, x)) + load(Voxel(input, z + 1, y, x + 1))
                   + load(Voxel(input, z + 1, y + 1, x)) + load(Voxel(input, z + 1, y + 1, x + 1))) / 8.0)
  {
    hide SampleLoose, SourcePoint, Voxel, Identity;
    var p := Point3(z as real + 0.5, y as real + 0.5, x as real + 0.5);
    IdentitySourcePoint([0.5, 0.5, 0.5], z, y, x);
    assert Floor(p.z) == z && Floor(p.y) == y && Floor(p.x) == x;
    SampleLooseAtCellCentre(input, load, p);
  }

  /** A shift along z of at least the input depth puts every source point past the last plane,
    * so every output voxel is the fill. */
  lemma AffineLargeShiftFills<T>(input: Volume<T>, load: T -> real, store: real -> T, fill: T,
                                 shift: Shift, od: nat, oh: nat, ow: nat)
    requires input.Valid() && shift[0] >= input.d as real
    ensures forall i | 0 <= i < od * oh * ow ::
              AffineVolume(input, load, store, fill, Identity(), shift, od, oh, ow)[i] == fill
  {
    forall i | 0 <= i < od * oh * ow
      ensures AffineVolume(input, load, store, fill, Identity(), shift, od, oh, ow)[i] == fill
    {
      AffineVolumeCells(input, load, store, fill, Identity(), shift, od, oh, ow, i);
      var c := Unflat(i, oh, ow);
      IdentitySourcePoint(shift, c.z, c.y, c.x);
      assert Floor(c.z as real + shift[0]) >= input.d;
    }
  }

  /** In the u8 kernel an accepted point blends values of [0, 255], so the clamp never fires
    * and the stored byte is the floor of the blend. */
  lemma AffineU8IsFloor(input: Volume<byte>, a: AffineMatrix3D, shift: Shift, cval: byte, c: Cell)
    requires input.Valid()
    ensures var p := SourcePoint(a, shift, c.z, c.y, c.x);
            var r := SampleLoose(input, ByteToReal, p);
            AffineCell(input, ByteToReal, ByteFromAffine, cval, a, shift, c)
              == if r.Some? then Floor(r.value) else cval
    ensures var r := SampleLoose(input, ByteToReal, SourcePoint(a, shift, c.z, c.y, c.x));
            r.Some? ==> 0.0 <= r.value <= 255.0
  {
    var p := SourcePoint(a, shift, c.z, c.y, c.x);
    if LooseInside(input, p) {
      SampleLooseWithin(input, ByteToReal, p, 0.0, 255.0);
    }
  }

  // ---------------------------------------------------------------- the kernel

  function MinInt(a: int, b: int): int
  {
    if a <= b then a else b
  }

  /** The body of the innermost loop: the loose lookup at (zSrc, ySrc, xSrc), computed as the
    * kernels compute it (clamped upper corners, the weighted sum in the scalar order). */
  method ResampleVoxel<T>(input: Volume<T>, load: T -> real, store: real -> T, fill: T,
                          zSrc: real, ySrc: real, xSrc: real) returns (value: T)
    requires input.Valid()
    ensures value == match SampleLoose(input, load, Point3(zSrc, ySrc, xSrc))
                     case None => fill
                     case Some(r) => store(r)
  {
    var d, h, w := input.d, input.h, input.w;
    var z0, y0, x0 := Floor(zSrc), Floor(ySrc), Floor(xSrc);
    if x0 >= 0 && x0 < w && y0 >= 0 && y0 < h && z0 >= 0 && z0 < d {
      var z1, y1, x1 := MinInt(z0 + 1, d - 1), MinInt(y0 + 1, h - 1), MinInt(x0 + 1, w - 1);
      var fz, fy, fx := zSrc - Floor(zSrc) as real, ySrc - Floor(ySrc) as real,
                        xSrc - Floor(xSrc) as real;
      assert z1 == Upper(z0, d) && y1 == Upper(y0, h) && x1 == Upper(x0, w);
      var idx := CornerIndices(z0, z1, y0, y1, x0, x1, h, w);
      assert idx == LooseIndices(z0, y0, x0, d, h, w);
      var corners := Corners(load(input.data[idx[0]]), load(input.data[idx[1]]),
                             load(input.data[idx[2]]), load(input.data[idx[3]]),
                             load(input.data[idx[4]]), load(input.data[idx[5]]),
                             load(input.data[idx[6]]), load(input.data[idx[7]]));
      var result := Blend(corners, fz, fy, fx);
      value := store(result);
    } else {
      value := fill;
    }
  }

  /** The sequential branch of the scalar kernels: every output voxel, in row-major order, reads
    * its source point and writes either the stored blend or `fill`. */
  method ResampleAffine<T>(input: Volume<T>, load: T -> real, store: real -> T, fill: T,
                           a: AffineMatrix3D, shift: Shift,
                           output: array<T>, od: nat, oh: nat, ow: nat)
    requires input.Valid() && output.Length == od * oh * ow
    modifies output
    ensures output[..] == AffineVolume(input, load, store, fill, a, shift, od, oh, ow)
  {
    hide AffineVolume, SampleLoose, SourcePoint;
    ghost var spec := AffineVolume(input, load, store, fill, a, shift, od, oh, ow);
    FlatOrigin(oh, ow);
    var m00, m01, m02 := a.m[0][0], a.m[0][1], a.m[0][2];
    var m10, m11, m12 := a.m[1][0], a.m[1][1], a.m[1][2];
    var m20, m21, m22 := a.m[2][0], a.m[2][1], a.m[2][2];
    for oz := 0 to od
      invariant Flat(oz, 0, 0, oh, ow) <= output.Length
      invariant forall i | 0 <= i < Flat(oz, 0, 0, oh, ow) :: output[i] == spec[i]
    {
      for oy := 0 to oh
        invariant Flat(oz, oy, 0, oh, ow) <= output.Length
        invariant forall i | 0 <= i < Flat(oz, oy, 0, oh, ow) :: output[i] == spec[i]
      {
        var baseZ := m00 * oz as real + m01 * oy as real + shift[0];
        var baseY := m10 * oz as real + m11 * oy as real + shift[1];
        var baseX := m20 * oz as real + m21 * oy as real + shift[2];
        assert baseZ == a.m[0][0] * oz as real + a.m[0][1] * oy as real + shift[0];
        assert baseY == a.m[1][0] * oz as real + a.m[1][1] * oy as real + shift[1];
        assert baseX == a.m[2][0] * oz as real + a.m[2][1] * oy as real + shift[2];
        for ox := 0 to ow
          invariant Flat(oz, oy, ox, oh, ow) <= output.Length
          invariant forall i | 0 <= i < Flat(oz, oy, ox, oh, ow) :: output[i] == spec[i]
        {
          var zSrc := m02 * ox as real + baseZ;
          var ySrc := m12 * ox as real + baseY;
          var xSrc := m22 * ox as real + baseX;
          HoistedSourcePoint(a, shift, oz, oy, ox, m02, m12, m22, baseZ, baseY, baseX);
          assert Point3(zSrc, ySrc, xSrc) == SourcePoint(a, shift, oz, oy, ox);
          var value := ResampleVoxel(input, load, store, fill, zSrc, ySrc, xSrc);
          assert value == AffineCell(input, load, store, fill, a, shift, Cell(oz, oy, ox));
          var outIdx := oz * oh * ow + oy * ow + ox;
          FlatLeftToRight(oz, oy, ox, oh, ow);
          AffineVolumeAt(input, load, store, fill, a, shift, od, oh, ow, oz, oy, ox);
          assert value == spec[outIdx];
          FlatNextVoxel(oz, oy, ox, oh, ow);
          ghost var before := output[..];
          output[outIdx] := value;
          assert output[..] == before[outIdx := spec[outIdx]];
        }
        FlatNextRow(oz, oy, oh, ow);
      }
      FlatNextPlane(oz, oh, ow);
    }
    FlatEnd(od, oh, ow);
  }

  /** `trilinear_3d_scalar` for an element type with an `Interpolate` implementation: values
    * are read with `to_f64`, results and the fill are stored with `from_f64`. */
  method Trilinear3DScalar<T>(input: Volume<T>, conv: Interpolate<T>, a: AffineMatrix3D,
                              shift: Shift, cval: real, output: array<T>, od: nat, oh: nat, ow: nat)
    requires input.Valid() && output.Length == od * oh * ow
    modifies output
    ensures output[..]
         == AffineVolume(input, conv.toF64, conv.fromF64, conv.fromF64(cval), a, shift, od, oh, ow)
  {
    ResampleAffine(input, conv.toF64, conv.fromF64, conv.fromF64(cval), a, shift, output, od, oh, ow);
  }

  /** `trilinear_3d_f16_scalar`: f16 elements, f32 arithmetic; results are stored with
    * `f16::from_f32`, the fill is `f16::from_f64(cval)`. */
  method Trilinear3DF16Scalar<H>(input: Volume<H>, half: HalfFloat<H>, a: AffineMatrix3D,
                                 shift: Shift, cval: real, output: array<H>, od: nat, oh: nat, ow: nat)
    requires input.Valid() && output.Length == od * oh * ow
    modifies output
    ensures output[..]
         == AffineVolume(input, half.toF32, half.fromF32, half.fromF64(cval), a, shift, od, oh, ow)
  {
    ResampleAffine(input, half.toF32, half.fromF32, half.fromF64(cval), a, shift, output, od, oh, ow);
  }

  /** `trilinear_3d_u8_scalar`: u8 elements; results are clamped to [0, 255] and truncated, the
    * fill is the u8 `cval` itself. */
  method Trilinear3DU8Scalar(input: Volume<byte>, a: AffineMatrix3D, shift: Shift, cval: byte,
                             output: array<byte>, od: nat, oh: nat, ow: nat)
    requires input.Valid() && output.Length == od * oh * ow
    modifies output
    ensures output[..] == AffineVolume(input, ByteToReal, ByteFromAffine, cval, a, shift, od, oh, ow)
  {
    ResampleAffine(input, ByteToReal, ByteFromAffine, cval, a, shift, output, od, oh, ow);
  }
}
