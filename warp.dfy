/** The warp entry points: 2× align-corners upsampling of a warp field, and the dispatchers
  * `apply_warp_3d_{f32,f16,u8}` that check the field, prefill the output with the fill value and
  * run one kernel. */
module Warp {
  import opened Wrappers
  import opened Layout
  import opened Trilinear
  import opened Storage
  import opened Field
  import opened ScalarWarp
  import opened Dispatch

  // ---------------------------------------------------------------- upsampling

  /** The per-axis scale of `upsample_warp_field_2x` for an input axis of n voxels (output axis
    * 2n): (n - 1) / (2n - 1) when the output axis has more than one voxel, else 0. */
  function UpsampleScale(n: nat): real
  {
    if 2 * n > 1 then (n - 1) as real / (2 * n - 1) as real else 0.0
  }

  /** The input coordinate of output index o on an axis of n input voxels. */
  function Coord(o: nat, n: nat): real
  {
    o as real * UpsampleScale(n)
  }

  /** The scale maps the last output index onto the last input index, and lies in [0, 1/2). */
  lemma UpsampleScaleSpans(n: nat)
    requires n >= 1
    ensures (2 * n - 1) as real * UpsampleScale(n) == (n - 1) as real
    ensures 0.0 <= UpsampleScale(n) < 0.5
  {
    var a, b := (n - 1) as real, (2 * n - 1) as real;
    assert UpsampleScale(n) == a / b;
    hide UpsampleScale;
    QuotientBelowHalf(a, b);
  }

  lemma QuotientBelowHalf(a: real, b: real)
    requires 0.0 <= a && 2.0 * a < b
    ensures b * (a / b) == a && 0.0 <= a / b < 0.5
  {
    var q := a / b;
    assert b * q == a;
    if q < 0.0 {
      PositiveTimesNegative(b, q);
      assert false;
    }
    if q >= 0.5 {
      PositiveTimesAtLeast(b, q, 0.5);
      assert false;
    }
  }

  lemma PositiveTimesNegative(b: real, q: real)
    requires b > 0.0 && q < 0.0
    ensures b * q < 0.0
  {}

  lemma PositiveTimesAtLeast(b: real, q: real, t: real)
    requires b > 0.0 && q >= t
    ensures b * q >= b * t
  {
    assert b * q - b * t == b * (q - t);
  }

  /** a <= b implies a*s <= b*s for non-negative s. */
  lemma MulRealMono(a: real, b: real, s: real)
    requires a <= b && s >= 0.0
    ensures a * s <= b * s
  {
    assert b * s - a * s == (b - a) * s;
  }

  /** Every output index o < 2n maps to an input coordinate in [0, n - 1]: the clamp of the
    * nearest-mode lookup never changes an upsampling coordinate. */
  lemma UpsampleCoordInRange(n: nat, o: nat)
    requires o < 2 * n
    ensures 0.0 <= Coord(o, n) <= (n - 1) as real
  {
    UpsampleScaleSpans(n);
    hide UpsampleScale;
    var s := UpsampleScale(n);
    MulRealMono(o as real, (2 * n - 1) as real, s);
    MulRealMono(0.0, o as real, s);
  }

  /** Output voxel (k, oz, oy, ox) of the upsampled field: channel k read with the nearest-mode
    * lookup at (oz * scale_z, oy * scale_y, ox * scale_x). */
  function UpsampleCell(f: Field4, k: nat, oz: nat, oy: nat, ox: nat): real
    requires f.Valid() && k < f.c && f.d >= 1 && f.h >= 1 && f.w >= 1
  {
    NearestModeInterp(f.Channel(k), Point3(Coord(oz, f.d), Coord(oy, f.h), Coord(ox, f.w)))
  }

  /** The clamp never fires: each output voxel is the scalar kernels' loose lookup at its scaled
    * coordinate, which is always accepted. */
  lemma UpsampleCellIsLoose(f: Field4, k: nat, oz: nat, oy: nat, ox: nat)
    requires f.Valid() && k < f.c && oz < 2 * f.d && oy < 2 * f.h && ox < 2 * f.w
    ensures SampleLoose(f.Channel(k), Exact, Point3(Coord(oz, f.d), Coord(oy, f.h), Coord(ox, f.w)))
         == Some(UpsampleCell(f, k, oz, oy, ox))
  {
    hide *;
    UpsampleCoordInRange(f.d, oz);
    UpsampleCoordInRange(f.h, oy);
    UpsampleCoordInRange(f.w, ox);
    var iz, iy, ix := Coord(oz, f.d), Coord(oy, f.h), Coord(ox, f.w);
    NearestInsideIsLoose(f.Channel(k), Point3(iz, iy, ix));
    UpsampleCellAt(f, k, oz, oy, ox, iz, iy, ix);
  }

  /** The first or the last index of an output axis, and the input index it lands on. */
  function OutCorner(n: nat, last: bool): nat
    requires n >= 1
  {
    if last then 2 * n - 1 else 0
  }

  function InCorner(n: nat, last: bool): nat
    requires n >= 1
  {
    if last then n - 1 else 0
  }

  lemma CornerLands(n: nat, last: bool)
    requires n >= 1
    ensures Coord(OutCorner(n, last), n) == InCorner(n, last) as real
    ensures InCorner(n, last) < n
  {
    UpsampleScaleSpans(n);
    hide UpsampleScale;
  }

  /** Align-corners: each of the eight output corners holds the input's value at the matching
    * input corner, in every channel. */
  lemma UpsampleCorners(f: Field4, k: nat, lastZ: bool, lastY: bool, lastX: bool)
    requires f.Valid() && k < f.c && f.d >= 1 && f.h >= 1 && f.w >= 1
    ensures UpsampleCell(f, k, OutCorner(f.d, lastZ), OutCorner(f.h, lastY), OutCorner(f.w, lastX))
         == Voxel(f.Channel(k), InCorner(f.d, lastZ), InCorner(f.h, lastY), InCorner(f.w, lastX))
  {
    CornerLands(f.d, lastZ);
    CornerLands(f.h, lastY);
    CornerLands(f.w, lastX);
    hide *;
    var iz, iy, ix := InCorner(f.d, lastZ), InCorner(f.h, lastY), InCorner(f.w, lastX);
    UpsampleCellAt(f, k, OutCorner(f.d, lastZ), OutCorner(f.h, lastY), OutCorner(f.w, lastX),
                   iz as real, iy as real, ix as real);
    NearestAtGridPoint(f.Channel(k), iz, iy, ix);
  }

  /** The eight voxels of the input's first unit cell. */
  function FirstCell(v: Volume<real>): Corners
    requires v.Valid() && v.d >= 2 && v.h >= 2 && v.w >= 2
  {
    Corners(Voxel(v, 0, 0, 0), Voxel(v, 0, 0, 1), Voxel(v, 0, 1, 0), Voxel(v, 0, 1, 1),
            Voxel(v, 1, 0, 0), Voxel(v, 1, 0, 1), Voxel(v, 1, 1, 0), Voxel(v, 1, 1, 1))
  }

  /** The loose lookup at a point of the first unit cell (every coordinate in [0, 1)) blends that
    * cell's voxels with the coordinates as weights. */
  lemma LooseInFirstCell(v: Volume<real>, p: Point3)
    requires v.Valid() && v.d >= 2 && v.h >= 2 && v.w >= 2
    requires 0.0 <= p.z < 1.0 && 0.0 <= p.y < 1.0 && 0.0 <= p.x < 1.0
    ensures SampleLoose(v, Exact, p) == Some(Blend(FirstCell(v), p.z, p.y, p.x))
  {
    assert Floor(p.z) == 0 && Floor(p.y) == 0 && Floor(p.x) == 0;
    assert Frac(p.z) == p.z && Frac(p.y) == p.y && Frac(p.x) == p.x;
    var idx := LooseIndices(0, 0, 0, v.d, v.h, v.w);
    assert idx == CornerIndices(0, 1, 0, 1, 0, 1, v.h, v.w);
    FlatInBounds(1, 1, 1, v.d, v.h, v.w);
  }

  /** Output voxel (1, 1, 1) blends the input's first unit cell with the three scales as
    * weights (in the 2×2×2 case every weight is 1/3). */
  lemma UpsampleFirstInterior(f: Field4, k: nat)
    requires f.Valid() && k < f.c && f.d >= 2 && f.h >= 2 && f.w >= 2
    ensures UpsampleCell(f, k, 1, 1, 1)
         == Blend(FirstCell(f.Channel(k)), UpsampleScale(f.d), UpsampleScale(f.h), UpsampleScale(f.w))
  {
    hide UpsampleScale, NearestModeInterp, SampleLoose;
    UpsampleScaleSpans(f.d);
    UpsampleScaleSpans(f.h);
    UpsampleScaleSpans(f.w);
    var p := Point3(Coord(1, f.d), Coord(1, f.h), Coord(1, f.w));
    UpsampleCellIsLoose(f, k, 1, 1, 1);
    LooseInFirstCell(f.Channel(k), p);
  }

  /** Along the first row, output voxel 1 lies between the input's first two voxels, a fraction
    * (w - 1) / (2w - 1) of the way (1/3 for w = 2). */
  lemma UpsampleFirstRowStep(f: Field4, k: nat)
    requires f.Valid() && k < f.c && f.d >= 2 && f.h >= 2 && f.w >= 2
    ensures UpsampleCell(f, k, 0, 0, 1)
         == Lerp(Voxel(f.Channel(k), 0, 0, 0), Voxel(f.Channel(k), 0, 0, 1), UpsampleScale(f.w))
  {
    hide UpsampleScale, NearestModeInterp, SampleLoose;
    UpsampleScaleSpans(f.d);
    UpsampleScaleSpans(f.h);
    UpsampleScaleSpans(f.w);
    var p := Point3(Coord(0, f.d), Coord(0, f.h), Coord(1, f.w));
    UpsampleCellIsLoose(f, k, 0, 0, 1);
    LooseInFirstCell(f.Channel(k), p);
    assert p == Point3(0.0, 0.0, UpsampleScale(f.w));
    BlendOnXEdge(FirstCell(f.Channel(k)), UpsampleScale(f.w));
  }

  /** On the x edge of a cell (fz = fy = 0) the blend is the linear interpolation along x. */
  lemma BlendOnXEdge(c: Corners, fx: real)
    ensures Blend(c, 0.0, 0.0, fx) == Lerp(c.v000, c.v001, fx)
  {}

  /** The field of the upsampling test (first row 1, 2 on an axis of two voxels) gives
    * 1 + 1/3 at (0, 0, 1). */
  lemma UpsampleTestValue(f: Field4, k: nat)
    requires f.Valid() && k < f.c && f.d >= 2 && f.h >= 2 && f.w == 2
    requires f.data[k][0] == 1.0 && f.data[k][1] == 2.0
    ensures UpsampleCell(f, k, 0, 0, 1) == 1.0 + 1.0 / 3.0
  {
    assert UpsampleScale(2) == 1.0 / 3.0;
    assert Lerp(1.0, 2.0, 1.0 / 3.0) == 1.0 + 1.0 / 3.0;
    assert Flat(0, 0, 0, f.h, f.w) == 0 && Flat(0, 0, 1, f.h, f.w) == 1;
    hide UpsampleCell, UpsampleScale, Lerp, Flat;
    UpsampleFirstRowStep(f, k);
  }

  /** Upsampling stays within the range of the channel's values. */
  lemma UpsampleWithin(f: Field4, k: nat, oz: nat, oy: nat, ox: nat, lo: real, hi: real)
    requires f.Valid() && k < f.c && f.d >= 1 && f.h >= 1 && f.w >= 1
    requires forall i | 0 <= i < |f.data[k]| :: lo <= f.data[k][i] <= hi
    ensures lo <= UpsampleCell(f, k, oz, oy, ox) <= hi
  {
    hide UpsampleScale, NearestModeInterp;
    NearestWithin(f.Channel(k), Point3(Coord(oz, f.d), Coord(oy, f.h), Coord(ox, f.w)), lo, hi);
  }

  /** The lookup at the kernel's scaled coordinates is the upsampled voxel. */
  lemma UpsampleCellAt(f: Field4, k: nat, oz: nat, oy: nat, ox: nat, iz: real, iy: real, ix: real)
    requires f.Valid() && k < f.c && f.d >= 1 && f.h >= 1 && f.w >= 1
    requires iz == Coord(oz, f.d) && iy == Coord(oy, f.h) && ix == Coord(ox, f.w)
    ensures NearestModeInterp(f.Channel(k), Point3(iz, iy, ix)) == UpsampleCell(f, k, oz, oy, ox)
  {
    hide NearestModeInterp, Coord;
  }

  /** The kernel's scale expression for an input axis of `inN` voxels and an output axis of
    * `outN = 2 * inN`. */
  lemma KernelScale(inN: nat, outN: nat)
    requires outN == inN * 2
    ensures (if outN > 1 then (inN - 1) as real / (outN - 1) as real else 0.0) == UpsampleScale(inN)
  {}

  /** One output row of `upsample_warp_field_2x`: the x loop for channel c, plane oz, row oy. */
  method UpsampleRow(f: Field4, c: nat, oz: nat, oy: nat, iz: real, iy: real, scaleX: real,
                     output: array4<real>)
    requires f.Valid() && c < f.c && oz < 2 * f.d && oy < 2 * f.h
    requires iz == Coord(oz, f.d) && iy == Coord(oy, f.h)
    requires scaleX == UpsampleScale(f.w)
    requires output.Length0 == f.c && output.Length1 == 2 * f.d
    requires output.Length2 == 2 * f.h && output.Length3 == 2 * f.w
    modifies output
    ensures forall x | 0 <= x < 2 * f.w :: output[c, oz, oy, x] == UpsampleCell(f, c, oz, oy, x)
    ensures forall k, z, y, x | 0 <= k < f.c && 0 <= z < 2 * f.d && 0 <= y < 2 * f.h
                                && 0 <= x < 2 * f.w && (k != c || z != oz || y != oy)
              :: output[k, z, y, x] == old(output[k, z, y, x])
  {
    hide UpsampleCell, NearestModeInterp, UpsampleScale;
    var input := f.Channel(c);
    for ox := 0 to 2 * f.w
      invariant forall x | 0 <= x < ox :: output[c, oz, oy, x] == UpsampleCell(f, c, oz, oy, x)
      invariant forall k, z, y, x | 0 <= k < f.c && 0 <= z < 2 * f.d && 0 <= y < 2 * f.h
                                    && 0 <= x < 2 * f.w && (k != c || z != oz || y != oy)
                  :: output[k, z, y, x] == old(output[k, z, y, x])
    {
      var ix := ox as real * scaleX;
      var value := NearestModeInterp(input, Point3(iz, iy, ix));
      UpsampleCellAt(f, c, oz, oy, ox, iz, iy, ix);
      output[c, oz, oy, ox] := value;
    }
  }

  /** One output plane of `upsample_warp_field_2x`: the y loop for channel c, plane oz. */
  method UpsamplePlane(f: Field4, c: nat, oz: nat, iz: real, scaleY: real, scaleX: real,
                       output: array4<real>)
    requires f.Valid() && c < f.c && oz < 2 * f.d
    requires iz == Coord(oz, f.d)
    requires scaleY == UpsampleScale(f.h) && scaleX == UpsampleScale(f.w)
    requires output.Length0 == f.c && output.Length1 == 2 * f.d
    requires output.Length2 == 2 * f.h && output.Length3 == 2 * f.w
    modifies output
    ensures forall y, x | 0 <= y < 2 * f.h && 0 <= x < 2 * f.w
              :: output[c, oz, y, x] == UpsampleCell(f, c, oz, y, x)
    ensures forall k, z, y, x | 0 <= k < f.c && 0 <= z < 2 * f.d && 0 <= y < 2 * f.h
                                && 0 <= x < 2 * f.w && (k != c || z != oz)
              :: output[k, z, y, x] == old(output[k, z, y, x])
  {
    hide UpsampleCell, NearestModeInterp, UpsampleScale;
    for oy := 0 to 2 * f.h
      invariant forall y, x | 0 <= y < oy && 0 <= x < 2 * f.w
                  :: output[c, oz, y, x] == UpsampleCell(f, c, oz, y, x)
      invariant forall k, z, y, x | 0 <= k < f.c && 0 <= z < 2 * f.d && 0 <= y < 2 * f.h
                                    && 0 <= x < 2 * f.w && (k != c || z != oz)
                  :: output[k, z, y, x] == old(output[k, z, y, x])
    {
      var iy := oy as real * scaleY;
      UpsampleRow(f, c, oz, oy, iz, iy, scaleX, output);
    }
  }

  /** `upsample_warp_field_2x` (sequential branch): a zero-initialised (channels, 2d, 2h, 2w)
    * array whose every voxel is then assigned its upsampled value. */
  method UpsampleWarpField2x(f: Field4) returns (output: array4<real>)
    requires f.Valid()
    ensures fresh(output)
    ensures output.Length0 == f.c && output.Length1 == 2 * f.d
    ensures output.Length2 == 2 * f.h && output.Length3 == 2 * f.w
    ensures forall k, z, y, x | 0 <= k < f.c && 0 <= z < 2 * f.d && 0 <= y < 2 * f.h && 0 <= x < 2 * f.w
              :: output[k, z, y, x] == UpsampleCell(f, k, z, y, x)
  {
    var channels, inD, inH, inW := f.c, f.d, f.h, f.w;
    var outD, outH, outW := inD * 2, inH * 2, inW * 2;
    var scaleZ := if outD > 1 then (inD - 1) as real / (outD - 1) as real else 0.0;
    var scaleY := if outH > 1 then (inH - 1) as real / (outH - 1) as real else 0.0;
    var scaleX := if outW > 1 then (inW - 1) as real / (outW - 1) as real else 0.0;
    KernelScale(inD, outD);
    KernelScale(inH, outH);
    KernelScale(inW, outW);
    hide UpsampleCell, NearestModeInterp, UpsampleScale;
    output := new real[channels, outD, outH, outW]((k, z, y, x) => 0.0);
    for c := 0 to channels
      invariant forall k, z, y, x | 0 <= k < c && 0 <= z < outD && 0 <= y < outH && 0 <= x < outW
                  :: output[k, z, y, x] == UpsampleCell(f, k, z, y, x)
    {
      UpsampleChannel(f, c, scaleZ, scaleY, scaleX, output);
    }
  }

  /** Channel c of the upsampling: the oz loop over its output planes. */
  method UpsampleChannel(f: Field4, c: nat, scaleZ: real, scaleY: real, scaleX: real,
                         output: array4<real>)
    requires f.Valid() && c < f.c
    requires scaleZ == UpsampleScale(f.d) && scaleY == UpsampleScale(f.h) && scaleX == UpsampleScale(f.w)
    requires output.Length0 == f.c && output.Length1 == 2 * f.d
    requires output.Length2 == 2 * f.h && output.Length3 == 2 * f.w
    modifies output
    ensures forall z, y, x | 0 <= z < 2 * f.d && 0 <= y < 2 * f.h && 0 <= x < 2 * f.w
              :: output[c, z, y, x] == UpsampleCell(f, c, z, y, x)
    ensures forall k, z, y, x | 0 <= k < f.c && 0 <= z < 2 * f.d && 0 <= y < 2 * f.h
                                && 0 <= x < 2 * f.w && k != c
              :: output[k, z, y, x] == old(output[k, z, y, x])
  {
    hide UpsampleCell, NearestModeInterp, UpsampleScale;
    for oz := 0 to 2 * f.d
      invariant forall z, y, x | 0 <= z < oz && 0 <= y < 2 * f.h && 0 <= x < 2 * f.w
                  :: output[c, z, y, x] == UpsampleCell(f, c, z, y, x)
      invariant forall k, z, y, x | 0 <= k < f.c && 0 <= z < 2 * f.d && 0 <= y < 2 * f.h
                                    && 0 <= x < 2 * f.w && k != c
                  :: output[k, z, y, x] == old(output[k, z, y, x])
    {
      var iz := oz as real * scaleZ;
      UpsamplePlane(f, c, oz, iz, scaleY, scaleX, output);
    }
  }

  /** Offset of voxel (y, x) inside a row-major h-by-w plane; it lies inside the plane. */
  function SliceIndex(y: int, x: int, h: int, w: int): (i: int)
    requires 0 <= y < h && 0 <= x < w
    ensures 0 <= i < h * w
  {
    RowInPlane(y, x, h, w);
    y * w + x
  }

  /** Distinct voxels of a plane have distinct offsets. */
  lemma SliceIndexDistinct(y1: int, x1: int, y2: int, x2: int, h: int, w: int)
    requires 0 <= y1 < h && 0 <= x1 < w && 0 <= y2 < h && 0 <= x2 < w
    requires y1 != y2 || x1 != x2
    ensures SliceIndex(y1, x1, h, w) != SliceIndex(y2, x2, h, w)
  {
    if y1 < y2 {
      MulMono(y1 + 1, y2, w);
    } else if y2 < y1 {
      MulMono(y2 + 1, y1, w);
    }
  }

  /** Row oy of `upsample_z_slice`: the x loop, writing offsets oy * out_w + ox of the slice. */
  method UpsampleSliceRow(f: Field4, c: nat, slice: array<real>, oz: nat, oy: nat,
                          iz: real, iy: real, scaleX: real)
    requires f.Valid() && c < f.c && oz < 2 * f.d && oy < 2 * f.h
    requires iz == Coord(oz, f.d) && iy == Coord(oy, f.h) && scaleX == UpsampleScale(f.w)
    requires slice.Length == (2 * f.h) * (2 * f.w)
    modifies slice
    ensures forall x | 0 <= x < 2 * f.w
              :: slice[SliceIndex(oy, x, 2 * f.h, 2 * f.w)] == UpsampleCell(f, c, oz, oy, x)
    ensures forall y, x | 0 <= y < 2 * f.h && 0 <= x < 2 * f.w && y != oy
              :: slice[SliceIndex(y, x, 2 * f.h, 2 * f.w)] == old(slice[SliceIndex(y, x, 2 * f.h, 2 * f.w)])
  {
    hide UpsampleCell, NearestModeInterp, UpsampleScale, SliceIndex;
    var input := f.Channel(c);
    var outH, outW := 2 * f.h, 2 * f.w;
    for ox := 0 to outW
      invariant forall x | 0 <= x < ox
                  :: slice[SliceIndex(oy, x, outH, outW)] == UpsampleCell(f, c, oz, oy, x)
      invariant forall y, x | 0 <= y < outH && 0 <= x < outW && y != oy
                  :: slice[SliceIndex(y, x, outH, outW)] == old(slice[SliceIndex(y, x, outH, outW)])
    {
      var ix := ox as real * scaleX;
      var value := NearestModeInterp(input, Point3(iz, iy, ix));
      UpsampleCellAt(f, c, oz, oy, ox, iz, iy, ix);
      forall y, x | 0 <= y < outH && 0 <= x < outW && y != oy
        ensures SliceIndex(y, x, outH, outW) != SliceIndex(oy, ox, outH, outW)
      {
        SliceIndexDistinct(y, x, oy, ox, outH, outW);
      }
      forall x | 0 <= x < ox
        ensures SliceIndex(oy, x, outH, outW) != SliceIndex(oy, ox, outH, outW)
      {
        SliceIndexDistinct(oy, x, oy, ox, outH, outW);
      }
      slice[SliceIndex(oy, ox, outH, outW)] := value;
    }
  }

  /** `upsample_z_slice` (parallel branch): output plane oz of channel c, written into its own
    * (2h * 2w)-long chunk of the channel at offset oy * out_w + ox. */
  method UpsampleZSlice(f: Field4, c: nat, slice: array<real>, oz: nat,
                        scaleZ: real, scaleY: real, scaleX: real)
    requires f.Valid() && c < f.c && oz < 2 * f.d
    requires scaleZ == UpsampleScale(f.d) && scaleY == UpsampleScale(f.h)
    requires scaleX == UpsampleScale(f.w)
    requires slice.Length == (2 * f.h) * (2 * f.w)
    modifies slice
    ensures forall y, x | 0 <= y < 2 * f.h && 0 <= x < 2 * f.w
              :: slice[SliceIndex(y, x, 2 * f.h, 2 * f.w)] == UpsampleCell(f, c, oz, y, x)
  {
    hide UpsampleCell, NearestModeInterp, UpsampleScale, SliceIndex;
    var outH, outW := 2 * f.h, 2 * f.w;
    var iz := oz as real * scaleZ;
    for oy := 0 to outH
      invariant forall y, x | 0 <= y < oy && 0 <= x < outW
                  :: slice[SliceIndex(y, x, outH, outW)] == UpsampleCell(f, c, oz, y, x)
    {
      var iy := oy as real * scaleY;
      UpsampleSliceRow(f, c, slice, oz, oy, iz, iy, scaleX);
    }
  }

  // ---------------------------------------------------------------- apply_warp_3d_*

  /** `apply_warp_3d_f32`: the field must have at least three channels; the output is prefilled
    * with `cval` and one kernel family runs. On the scalar branch the output is the warped
    * volume; the AVX kernels are not part of this model, so those branches keep the prefill and
    * the contract says nothing about their voxels. */
  method ApplyWarp3DF32(image: Volume<real>, f: Field4, cval: real, caps: Caps)
    returns (output: array<real>, backend: Backend)
    requires WarpInputs(image, f)
    ensures fresh(output) && output.Length == |image.data|
    ensures backend == SelectBackend(caps, false)
    ensures backend == Scalar ==> output[..] == WarpVolume(image, Exact, Exact, cval, f)
  {
    output := new real[|image.data|](_ => cval);
    backend := SelectBackend(caps, false);
    if backend == Scalar {
      ApplyWarp3DF32Scalar(image, f, output, cval);
    }
  }

  /** `apply_warp_3d_f16`: as the f32 entry point, with f16 elements; its AVX2 branch also needs
    * `f16c`. */
  method ApplyWarp3DF16<H>(image: Volume<H>, half: HalfFloat<H>, f: Field4, cval: H, caps: Caps)
    returns (output: array<H>, backend: Backend)
    requires WarpInputs(image, f)
    ensures fresh(output) && output.Length == |image.data|
    ensures backend == SelectBackend(caps, true)
    ensures backend == Scalar
            ==> output[..] == WarpVolume(image, half.toF32, half.fromF32, half.toF32(cval), f)
  {
    output := new H[|image.data|](_ => cval);
    backend := SelectBackend(caps, true);
    if backend == Scalar {
      ApplyWarp3DF16Scalar(image, half, f, output, cval);
    }
  }

  /** `apply_warp_3d_u8`: as the f32 entry point, with u8 elements rounded and clamped on store. */
  method ApplyWarp3DU8(image: Volume<byte>, f: Field4, cval: byte, caps: Caps)
    returns (output: array<byte>, backend: Backend)
    requires WarpInputs(image, f)
    ensures fresh(output) && output.Length == |image.data|
    ensures backend == SelectBackend(caps, false)
    ensures backend == Scalar
            ==> output[..] == WarpVolume(image, ByteToReal, ByteFromWarp, ByteToReal(cval), f)
  {
    output := new byte[|image.data|](_ => cval);
    backend := SelectBackend(caps, false);
    if backend == Scalar {
      ApplyWarp3DU8Scalar(image, f, output, cval);
    }
  }
}
