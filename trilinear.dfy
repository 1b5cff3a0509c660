/** The point-sampling arithmetic every kernel of the crate repeats: splitting a coordinate into
  * floor and fraction, the per-axis acceptance rules, the eight corner offsets and the
  * trilinear blend of the eight corner values. */
module Trilinear {
  import opened Wrappers
  import opened Layout

  /** A flat, row-major d×h×w volume (an ndarray `Array3` in standard layout). */
  datatype Volume<T> = Volume(d: nat, h: nat, w: nat, data: seq<T>)
  {
    predicate Valid()
    {
      |data| == d * h * w
    }
  }

  /** The voxel at (z, y, x). */
  function Voxel<T>(v: Volume<T>, z: nat, y: nat, x: nat): T
    requires v.Valid() && z < v.d && y < v.h && x < v.w
  {
    FlatInBounds(z, y, x, v.d, v.h, v.w);
    v.data[Flat(z, y, x, v.h, v.w)]
  }

  /** A point (or a displacement) in (z, y, x) order. */
  datatype Point3 = Point3(z: real, y: real, x: real)

  // ---------------------------------------------------------------- one axis

  function Floor(c: real): int
  {
    c.Floor
  }

  /** Fractional part: the distance from the floor, in [0, 1). */
  function Frac(c: real): real
  {
    c - c.Floor as real
  }

  lemma FracInUnit(c: real)
    ensures 0.0 <= Frac(c) < 1.0 && Floor(c) as real + Frac(c) == c
  {}

  /** Acceptance rule of the scalar kernels: the lower corner lies on the axis. */
  predicate Loose(f: int, size: nat)
  {
    0 <= f < size
  }

  /** Acceptance rule of the AVX2 kernels (and the warp field's interior branch):
    * the lower corner and the corner after it both lie on the axis. */
  predicate Strict(f: int, size: nat)
  {
    0 <= f < size - 1
  }

  lemma StrictImpliesLoose(f: int, size: nat)
    requires Strict(f, size)
    ensures Loose(f, size)
  {}

  /** The upper corner `min(f + 1, size - 1)`: the next index, except on the last index of the
    * axis where it repeats the lower corner. */
  function Upper(f: nat, size: nat): nat
    requires f < size
  {
    if f + 1 < size then f + 1 else size - 1
  }

  /** The upper corner is on the axis, and it is f + 1 exactly when f + 1 is. */
  lemma UpperOnAxis(f: nat, size: nat)
    requires f < size
    ensures f <= Upper(f, size) <= f + 1 && Upper(f, size) < size
    ensures Upper(f, size) == f + 1 <==> f + 1 < size
  {}

  /** `f32::clamp`, which demands lo <= hi. */
  function Clamp(c: real, lo: real, hi: real): real
    requires lo <= hi
  {
    if c < lo then lo else if c > hi then hi else c
  }

  /** The clamped value lies in [lo, hi], is c itself when c does, and the nearer bound
    * otherwise. */
  lemma ClampInRange(c: real, lo: real, hi: real)
    requires lo <= hi
    ensures lo <= Clamp(c, lo, hi) <= hi
    ensures lo <= c <= hi ==> Clamp(c, lo, hi) == c
    ensures c < lo ==> Clamp(c, lo, hi) == lo
    ensures c > hi ==> Clamp(c, lo, hi) == hi
  {}

  /** The image-warp snap: a coordinate within 1e-5 below zero is read as exactly zero. */
  function Snap(c: real): real
  {
    if -0.00001 < c < 0.0 then 0.0 else c
  }

  // ---------------------------------------------------------------- corners and blend

  /** The eight corner values, named by their (z, y, x) offset bits. */
  datatype Corners = Corners(v000: real, v001: real, v010: real, v011: real,
                             v100: real, v101: real, v110: real, v111: real)

  /** The trilinear weighted sum, written as the scalar kernels write it. */
  function Blend(c: Corners, fz: real, fy: real, fx: real): real
  {
    c.v000 * (1.0 - fx) * (1.0 - fy) * (1.0 - fz)
    + c.v001 * fx * (1.0 - fy) * (1.0 - fz)
    + c.v010 * (1.0 - fx) * fy * (1.0 - fz)
    + c.v011 * fx * fy * (1.0 - fz)
    + c.v100 * (1.0 - fx) * (1.0 - fy) * fz
    + c.v101 * fx * (1.0 - fy) * fz
    + c.v110 * (1.0 - fx) * fy * fz
    + c.v111 * fx * fy * fz
  }

  /** The eight corner weights w000..w111 as the AVX2 kernels precompute them per lane. */
  function Weights(fz: real, fy: real, fx: real): (ws: seq<real>)
    ensures |ws| == 8
  {
    [ (1.0 - fx) * (1.0 - fy) * (1.0 - fz), fx * (1.0 - fy) * (1.0 - fz),
      (1.0 - fx) * fy * (1.0 - fz),         fx * fy * (1.0 - fz),
      (1.0 - fx) * (1.0 - fy) * fz,         fx * (1.0 - fy) * fz,
      (1.0 - fx) * fy * fz,                 fx * fy * fz ]
  }

  /** Dot product of the corner values with a weight vector, in the AVX2 lane loop's order. */
  function Weighted(c: Corners, ws: seq<real>): real
    requires |ws| == 8
  {
    c.v000 * ws[0] + c.v001 * ws[1] + c.v010 * ws[2] + c.v011 * ws[3]
    + c.v100 * ws[4] + c.v101 * ws[5] + c.v110 * ws[6] + c.v111 * ws[7]
  }

  /** The eight weights form a partition of unity, whatever the fractions. */
  lemma WeightsSumToOne(fz: real, fy: real, fx: real)
    ensures var ws := Weights(fz, fy, fx);
            ws[0] + ws[1] + ws[2] + ws[3] + ws[4] + ws[5] + ws[6] + ws[7] == 1.0
  {
    var ws := Weights(fz, fy, fx);
    var a := (1.0 - fx) * (1.0 - fy);
    var b := fx * (1.0 - fy);
    var c := (1.0 - fx) * fy;
    var e := fx * fy;
    assert ws[0] + ws[4] == a;
    assert ws[1] + ws[5] == b;
    assert ws[2] + ws[6] == c;
    assert ws[3] + ws[7] == e;
    assert a + b == 1.0 - fy;
    assert c + e == fy;
  }

  /** Precomputed weights give the same value as the scalar weighted sum. */
  lemma WeightedIsBlend(c: Corners, fz: real, fy: real, fx: real)
    ensures Weighted(c, Weights(fz, fy, fx)) == Blend(c, fz, fy, fx)
  {
    var ws := Weights(fz, fy, fx);
    assert ws[0] == (1.0 - fx) * (1.0 - fy) * (1.0 - fz) && ws[1] == fx * (1.0 - fy) * (1.0 - fz);
    assert ws[2] == (1.0 - fx) * fy * (1.0 - fz) && ws[3] == fx * fy * (1.0 - fz);
    assert ws[4] == (1.0 - fx) * (1.0 - fy) * fz && ws[5] == fx * (1.0 - fy) * fz;
    assert ws[6] == (1.0 - fx) * fy * fz && ws[7] == fx * fy * fz;
    WeightedAtoms(c.v000, c.v001, c.v010, c.v011, c.v100, c.v101, c.v110, c.v111,
                  1.0 - fz, fz, 1.0 - fy, fy, 1.0 - fx, fx);
  }

  /** Each corner times its precomputed weight is that corner's scalar product term. */
  lemma WeightedAtoms(v0: real, v1: real, v2: real, v3: real, v4: real, v5: real, v6: real,
                      v7: real, gz: real, z: real, gy: real, y: real, gx: real, x: real)
    ensures v0 * (gx * gy * gz) + v1 * (x * gy * gz) + v2 * (gx * y * gz) + v3 * (x * y * gz)
          + v4 * (gx * gy * z) + v5 * (x * gy * z) + v6 * (gx * y * z) + v7 * (x * y * z)
         == v0 * gx * gy * gz + v1 * x * gy * gz + v2 * gx * y * gz + v3 * x * y * gz
          + v4 * gx * gy * z + v5 * x * gy * z + v6 * gx * y * z + v7 * x * y * z
  {}

  /** Linear interpolation from a (t = 0) to b (t = 1). */
  function Lerp(a: real, b: real, t: real): real
  {
    a * (1.0 - t) + b * t
  }

  lemma LerpScaled(a: real, b: real, t: real, s: real)
    ensures Lerp(a, b, t) * s == a * (1.0 - t) * s + b * t * s
  {}

  lemma SumScaled(y: real, p: real, q: real, r: real, u: real, s: real)
    requires y == p + q + r + u
    ensures y * s == p * s + q * s + r * s + u * s
  {}

  /** The four weighted terms of one z-plane. */
  function PlaneSum(a: real, b: real, c: real, e: real, fy: real, fx: real): real
  {
    a * (1.0 - fx) * (1.0 - fy) + b * fx * (1.0 - fy) + c * (1.0 - fx) * fy + e * fx * fy
  }

  /** Bilinear interpolation in one z-plane, expanded into its four weighted terms. */
  lemma PlaneExpanded(a: real, b: real, c: real, e: real, fy: real, fx: real)
    ensures Lerp(Lerp(a, b, fx), Lerp(c, e, fx), fy) == PlaneSum(a, b, c, e, fy, fx)
  {
    LerpScaled(a, b, fx, 1.0 - fy);
    LerpScaled(c, e, fx, fy);
  }

  lemma BlendByPlanes(c: Corners, fz: real, fy: real, fx: real)
    ensures Blend(c, fz, fy, fx)
         == PlaneSum(c.v000, c.v001, c.v010, c.v011, fy, fx) * (1.0 - fz)
          + PlaneSum(c.v100, c.v101, c.v110, c.v111, fy, fx) * fz
  {
    BlendAtoms(c.v000, c.v001, c.v010, c.v011, c.v100, c.v101, c.v110, c.v111,
               1.0 - fz, fz, 1.0 - fy, fy, 1.0 - fx, fx);
  }

  /** The eight-term sum over atoms, with the z weights factored out of each plane. */
  lemma BlendAtoms(v0: real, v1: real, v2: real, v3: real, v4: real, v5: real, v6: real,
                   v7: real, gz: real, z: real, gy: real, y: real, gx: real, x: real)
    ensures v0 * gx * gy * gz + v1 * x * gy * gz + v2 * gx * y * gz + v3 * x * y * gz
          + v4 * gx * gy * z + v5 * x * gy * z + v6 * gx * y * z + v7 * x * y * z
         == (v0 * gx * gy + v1 * x * gy + v2 * gx * y + v3 * x * y) * gz
          + (v4 * gx * gy + v5 * x * gy + v6 * gx * y + v7 * x * y) * z
  {
    Regroup(v0 * gx * gy, v1 * x * gy, v2 * gx * y, v3 * x * y,
            v4 * gx * gy, v5 * x * gy, v6 * gx * y, v7 * x * y, gz, z);
  }

  /** Factoring the two plane weights out of the eight-term sum. */
  lemma Regroup(t0: real, t1: real, t2: real, t3: real, t4: real, t5: real, t6: real, t7: real,
                s: real, z: real)
    ensures t0 * s + t1 * s + t2 * s + t3 * s + t4 * z + t5 * z + t6 * z + t7 * z
         == (t0 + t1 + t2 + t3) * s + (t4 + t5 + t6 + t7) * z
  {
    SumScaled(t0 + t1 + t2 + t3, t0, t1, t2, t3, s);
    SumScaled(t4 + t5 + t6 + t7, t4, t5, t6, t7, z);
  }

  /** The weighted sum is x-, then y-, then z-interpolation. */
  lemma BlendIsNestedLerp(c: Corners, fz: real, fy: real, fx: real)
    ensures Blend(c, fz, fy, fx)
         == Lerp(Lerp(Lerp(c.v000, c.v001, fx), Lerp(c.v010, c.v011, fx), fy),
                 Lerp(Lerp(c.v100, c.v101, fx), Lerp(c.v110, c.v111, fx), fy), fz)
  {
    hide Blend, PlaneSum;
    PlaneExpanded(c.v000, c.v001, c.v010, c.v011, fy, fx);
    PlaneExpanded(c.v100, c.v101, c.v110, c.v111, fy, fx);
    BlendByPlanes(c, fz, fy, fx);
  }

  lemma MulNonNeg(a: real, b: real)
    requires a >= 0.0 && b >= 0.0
    ensures a * b >= 0.0
  {}

  lemma MulAtMost(a: real, t: real)
    requires a >= 0.0 && 0.0 <= t <= 1.0
    ensures a * t <= a
  {
    MulNonNeg(a, 1.0 - t);
    assert a - a * t == a * (1.0 - t);
  }

  lemma LerpRising(a: real, b: real, t: real)
    requires 0.0 <= t <= 1.0 && a <= b
    ensures a <= Lerp(a, b, t) <= b
  {
    assert Lerp(a, b, t) == a + (b - a) * t;
    MulNonNeg(b - a, t);
    MulAtMost(b - a, t);
  }

  lemma LerpFalling(a: real, b: real, t: real)
    requires 0.0 <= t <= 1.0 && b <= a
    ensures b <= Lerp(a, b, t) <= a
  {
    assert Lerp(a, b, t) == a - (a - b) * t;
    MulNonNeg(a - b, t);
    MulAtMost(a - b, t);
  }

  /** A lerp of two values inside [lo, hi] stays inside [lo, hi]. */
  lemma LerpWithin(a: real, b: real, t: real, lo: real, hi: real)
    requires 0.0 <= t <= 1.0 && lo <= a <= hi && lo <= b <= hi
    ensures lo <= Lerp(a, b, t) <= hi
  {
    if a <= b {
      LerpRising(a, b, t);
    } else {
      LerpFalling(a, b, t);
    }
  }

  predicate CornersWithin(c: Corners, lo: real, hi: real)
  {
    lo <= c.v000 <= hi && lo <= c.v001 <= hi && lo <= c.v010 <= hi && lo <= c.v011 <= hi &&
    lo <= c.v100 <= hi && lo <= c.v101 <= hi && lo <= c.v110 <= hi && lo <= c.v111 <= hi
  }

  /** With fractions in [0, 1] the blend is a convex combination: it never leaves the range
    * spanned by the eight corners. */
  lemma BlendWithin(c: Corners, fz: real, fy: real, fx: real, lo: real, hi: real)
    requires 0.0 <= fz <= 1.0 && 0.0 <= fy <= 1.0 && 0.0 <= fx <= 1.0
    requires CornersWithin(c, lo, hi)
    ensures lo <= Blend(c, fz, fy, fx) <= hi
  {
    BlendIsNestedLerp(c, fz, fy, fx);
    var x00 := Lerp(c.v000, c.v001, fx);
    var x01 := Lerp(c.v010, c.v011, fx);
    var x10 := Lerp(c.v100, c.v101, fx);
    var x11 := Lerp(c.v110, c.v111, fx);
    LerpWithin(c.v000, c.v001, fx, lo, hi);
    LerpWithin(c.v010, c.v011, fx, lo, hi);
    LerpWithin(c.v100, c.v101, fx, lo, hi);
    LerpWithin(c.v110, c.v111, fx, lo, hi);
    LerpWithin(x00, x01, fy, lo, hi);
    LerpWithin(x10, x11, fy, lo, hi);
    LerpWithin(Lerp(x00, x01, fy), Lerp(x10, x11, fy), fz, lo, hi);
  }

  /** At an integer coordinate (all fractions zero) the blend is exactly the lower corner. */
  lemma BlendAtLowerCorner(c: Corners)
    ensures Blend(c, 0.0, 0.0, 0.0) == c.v000
  {}

  /** Eight equal corners blend to that value at any fractions. */
  lemma BlendOfConstant(c: Corners, v: real, fz: real, fy: real, fx: real)
    requires c == Corners(v, v, v, v, v, v, v, v)
    ensures Blend(c, fz, fy, fx) == v
  {
    BlendIsNestedLerp(c, fz, fy, fx);
  }

  /** At the centre of a unit cell the blend is the mean of the eight corners. */
  lemma BlendAtCentre(c: Corners)
    ensures Blend(c, 0.5, 0.5, 0.5)
         == (c.v000 + c.v001 + c.v010 + c.v011 + c.v100 + c.v101 + c.v110 + c.v111) / 8.0
  {}

  // ---------------------------------------------------------------- corner offsets

  /** The eight flat offsets for lower corner (z0, y0, x0) and upper corner (z1, y1, x1),
    * in the order 000, 001, 010, 011, 100, 101, 110, 111. */
  function CornerIndices(z0: int, z1: int, y0: int, y1: int, x0: int, x1: int,
                         h: int, w: int): (idx: seq<int>)
    ensures |idx| == 8
  {
    [ Flat(z0, y0, x0, h, w), Flat(z0, y0, x1, h, w), Flat(z0, y1, x0, h, w), Flat(z0, y1, x1, h, w),
      Flat(z1, y0, x0, h, w), Flat(z1, y0, x1, h, w), Flat(z1, y1, x0, h, w), Flat(z1, y1, x1, h, w) ]
  }

  predicate AllBelow(idx: seq<int>, n: int)
  {
    forall k | 0 <= k < |idx| :: 0 <= idx[k] < n
  }

  /** Corners whose coordinates lie on the axes have offsets inside the volume. */
  lemma CornerIndicesInBounds(z0: int, z1: int, y0: int, y1: int, x0: int, x1: int,
                              d: int, h: int, w: int)
    requires 0 <= z0 < d && 0 <= z1 < d && 0 <= y0 < h && 0 <= y1 < h && 0 <= x0 < w && 0 <= x1 < w
    ensures AllBelow(CornerIndices(z0, z1, y0, y1, x0, x1, h, w), d * h * w)
  {
    FlatInBounds(z0, y0, x0, d, h, w);
    FlatInBounds(z0, y0, x1, d, h, w);
    FlatInBounds(z0, y1, x0, d, h, w);
    FlatInBounds(z0, y1, x1, d, h, w);
    FlatInBounds(z1, y0, x0, d, h, w);
    FlatInBounds(z1, y0, x1, d, h, w);
    FlatInBounds(z1, y1, x0, d, h, w);
    FlatInBounds(z1, y1, x1, d, h, w);
  }

  /** Offsets used by the scalar kernels: the upper corners are clamped with `Upper`. All of them
    * are inside the volume. */
  function LooseIndices(z0: nat, y0: nat, x0: nat, d: nat, h: nat, w: nat): (idx: seq<int>)
    requires z0 < d && y0 < h && x0 < w
    ensures |idx| == 8 && AllBelow(idx, d * h * w)
  {
    CornerIndicesInBounds(z0, Upper(z0, d), y0, Upper(y0, h), x0, Upper(x0, w), d, h, w);
    CornerIndices(z0, Upper(z0, d), y0, Upper(y0, h), x0, Upper(x0, w), h, w)
  }

  /** Offsets used by the AVX2 kernels: idx000 plus 1, the row stride w and the plane stride h*w,
    * with no clamping. Under the strict rule they are the unclamped corners, all inside the volume. */
  function StrictIndices(z0: nat, y0: nat, x0: nat, d: nat, h: nat, w: nat): (idx: seq<int>)
    requires z0 + 1 < d && y0 + 1 < h && x0 + 1 < w
    ensures idx == CornerIndices(z0, z0 + 1, y0, y0 + 1, x0, x0 + 1, h, w)
    ensures |idx| == 8 && AllBelow(idx, d * h * w)
  {
    var i := Flat(z0, y0, x0, h, w);
    assert (z0 + 1) * (h * w) == z0 * (h * w) + h * w;
    assert (y0 + 1) * w == y0 * w + w;
    CornerIndicesInBounds(z0, z0 + 1, y0, y0 + 1, x0, x0 + 1, d, h, w);
    [ i, i + 1, i + w, i + w + 1, i + h * w, i + h * w + 1, i + h * w + w, i + h * w + w + 1 ]
  }

  /** Under the strict rule the clamped (scalar) offsets and the unclamped (AVX2) offsets
    * coincide. */
  lemma StrictIndicesAreLoose(z0: nat, y0: nat, x0: nat, d: nat, h: nat, w: nat)
    requires z0 + 1 < d && y0 + 1 < h && x0 + 1 < w
    ensures StrictIndices(z0, y0, x0, d, h, w) == LooseIndices(z0, y0, x0, d, h, w)
  {}

  /** Reads the eight corners through the element conversion `load`. */
  function Gather<T>(data: seq<T>, load: T -> real, idx: seq<int>): Corners
    requires |idx| == 8 && AllBelow(idx, |data|)
  {
    Corners(load(data[idx[0]]), load(data[idx[1]]), load(data[idx[2]]), load(data[idx[3]]),
            load(data[idx[4]]), load(data[idx[5]]), load(data[idx[6]]), load(data[idx[7]]))
  }

  /** Gathered corners of data whose loaded values lie in [lo, hi] lie in [lo, hi]. */
  lemma GatherWithin<T>(data: seq<T>, load: T -> real, idx: seq<int>, lo: real, hi: real)
    requires |idx| == 8 && AllBelow(idx, |data|)
    requires forall i | 0 <= i < |data| :: lo <= load(data[i]) <= hi
    ensures CornersWithin(Gather(data, load, idx), lo, hi)
  {}

  // ---------------------------------------------------------------- point samplers

  predicate LooseInside<T>(v: Volume<T>, p: Point3)
  {
    Loose(Floor(p.z), v.d) && Loose(Floor(p.y), v.h) && Loose(Floor(p.x), v.w)
  }

  predicate StrictInside<T>(v: Volume<T>, p: Point3)
  {
    Strict(Floor(p.z), v.d) && Strict(Floor(p.y), v.h) && Strict(Floor(p.x), v.w)
  }

  /** The scalar kernels' lookup: None exactly when a floor falls off its axis, otherwise the
    * blend of the corners with clamped upper indices. */
  function SampleLoose<T>(v: Volume<T>, load: T -> real, p: Point3): Option<real>
    requires v.Valid()
  {
    if !LooseInside(v, p) then None
    else
      var idx := LooseIndices(Floor(p.z), Floor(p.y), Floor(p.x), v.d, v.h, v.w);
      Some(Blend(Gather(v.data, load, idx), Frac(p.z), Frac(p.y), Frac(p.x)))
  }

  /** The AVX2 kernels' lookup: None exactly when a floor is negative or on the last index of its
    * axis, otherwise the blend of the unclamped corners. */
  function SampleStrict<T>(v: Volume<T>, load: T -> real, p: Point3): (r: Option<real>)
    requires v.Valid()
    ensures r.Some? <==> StrictInside(v, p)
  {
    if !StrictInside(v, p) then None
    else
      var idx := StrictIndices(Floor(p.z), Floor(p.y), Floor(p.x), v.d, v.h, v.w);
      Some(Weighted(Gather(v.data, load, idx), Weights(Frac(p.z), Frac(p.y), Frac(p.x))))
  }

  /** Wherever the strict rule accepts a point the two lookups return the same value. */
  lemma StrictAgreesWithLoose<T>(v: Volume<T>, load: T -> real, p: Point3)
    requires v.Valid() && StrictInside(v, p)
    ensures SampleLoose(v, load, p) == SampleStrict(v, load, p)
  {
    var idx := StrictIndices(Floor(p.z), Floor(p.y), Floor(p.x), v.d, v.h, v.w);
    StrictIndicesAreLoose(Floor(p.z), Floor(p.y), Floor(p.x), v.d, v.h, v.w);
    WeightedIsBlend(Gather(v.data, load, idx), Frac(p.z), Frac(p.y), Frac(p.x));
  }

  /** The two rules are not the same: in the last unit cell of a 2×2×2 volume the scalar lookup
    * accepts a point that the AVX2 lookup rejects. */
  lemma PoliciesDisagreeOnLastCell()
    ensures var v := Volume(2, 2, 2, [0.0, 1.0, 2.0, 3.0, 4.0, 5.0, 6.0, 7.0]);
            var p := Point3(1.0, 0.0, 0.0);
            SampleLoose(v, x => x, p) == Some(4.0) && SampleStrict(v, x => x, p) == None
  {
    var v := Volume(2, 2, 2, [0.0, 1.0, 2.0, 3.0, 4.0, 5.0, 6.0, 7.0]);
    var p := Point3(1.0, 0.0, 0.0);
    assert Floor(1.0) == 1 && Floor(0.0) == 0;
    assert Frac(1.0) == 0.0 && Frac(0.0) == 0.0;
    assert LooseIndices(1, 0, 0, 2, 2, 2)[0] == 4;
  }

  /** At a grid point on the volume the loose lookup returns that voxel exactly. */
  lemma SampleLooseAtGridPoint<T>(v: Volume<T>, load: T -> real, z: int, y: int, x: int)
    requires v.Valid()
    ensures SampleLoose(v, load, Point3(z as real, y as real, x as real))
         == if 0 <= z < v.d && 0 <= y < v.h && 0 <= x < v.w then Some(load(Voxel(v, z, y, x)))
            else None
  {
    if 0 <= z < v.d && 0 <= y < v.h && 0 <= x < v.w {
      SampleLooseInsideGridPoint(v, load, z, y, x);
    }
  }

  lemma SampleLooseInsideGridPoint<T>(v: Volume<T>, load: T -> real, z: nat, y: nat, x: nat)
    requires v.Valid() && z < v.d && y < v.h && x < v.w
    ensures SampleLoose(v, load, Point3(z as real, y as real, x as real))
         == Some(load(Voxel(v, z, y, x)))
  {
    FlatInBounds(z, y, x, v.d, v.h, v.w);
    var p := Point3(z as real, y as real, x as real);
    assert Floor(p.z) == z && Floor(p.y) == y && Floor(p.x) == x;
    var idx := LooseIndices(z, y, x, v.d, v.h, v.w);
    BlendAtLowerCorner(Gather(v.data, load, idx));
  }

  /** At the centre of a unit cell that lies wholly inside the volume (the strict rule holds)
    * the loose lookup is the mean of the cell's eight corners. */
  lemma SampleLooseAtCellCentre<T>(v: Volume<T>, load: T -> real, p: Point3)
    requires v.Valid() && StrictInside(v, p)
    requires Frac(p.z) == 0.5 && Frac(p.y) == 0.5 && Frac(p.x) == 0.5
    ensures var z, y, x := Floor(p.z), Floor(p.y), Floor(p.x);
            SampleLoose(v, load, p)
              == Some((load(Voxel(v, z, y, x)) + load(Voxel(v, z, y, x + 1))
                       + load(Voxel(v, z, y + 1, x)) + load(Voxel(v, z, y + 1, x + 1))
                       + load(Voxel(v, z + 1, y, x)) + load(Voxel(v, z + 1, y, x + 1))
                       + load(Voxel(v, z + 1, y + 1, x)) + load(Voxel(v, z + 1, y + 1, x + 1))) / 8.0)
  {
    var z, y, x := Floor(p.z), Floor(p.y), Floor(p.x);
    var idx := LooseIndices(z, y, x, v.d, v.h, v.w);
    FlatInBounds(z + 1, y + 1, x + 1, v.d, v.h, v.w);
    BlendAtCentre(Gather(v.data, load, idx));
  }

  /** Loose lookups never leave the range of the loaded data. */
  lemma SampleLooseWithin<T>(v: Volume<T>, load: T -> real, p: Point3, lo: real, hi: real)
    requires v.Valid() && LooseInside(v, p)
    requires forall i | 0 <= i < |v.data| :: lo <= load(v.data[i]) <= hi
    ensures lo <= SampleLoose(v, load, p).value <= hi
  {
    var idx := LooseIndices(Floor(p.z), Floor(p.y), Floor(p.x), v.d, v.h, v.w);
    GatherWithin(v.data, load, idx, lo, hi);
    BlendWithin(Gather(v.data, load, idx), Frac(p.z), Frac(p.y), Frac(p.x), lo, hi);
  }
}
