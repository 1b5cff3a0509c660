/** The four-dimensional warp field (channels × d × h × w) and the edge-clamped ("nearest"
  * boundary) trilinear lookup used on it. */
module Field {
  import opened Wrappers
  import opened Layout
  import opened Trilinear
  import opened Storage

  /** An `ArrayView4<f32>` in standard layout: `data[k]` is channel k, a flat d×h×w volume.
    * Channels 0, 1 and 2 hold the z, y and x displacements; further channels are ignored. */
  datatype Field4 = Field4(c: nat, d: nat, h: nat, w: nat, data: seq<seq<real>>)
  {
    predicate Valid()
    {
      |data| == c && forall k | 0 <= k < c :: |data[k]| == d * h * w
    }

    /** Well-formed, holding the three displacement channels, and non-empty on every axis, so
      * that a point can be clamped into it. */
    predicate Ready()
    {
      Valid() && c >= 3 && d >= 1 && h >= 1 && w >= 1
    }

    /** `warp_field.slice(s![k, .., .., ..])`. */
    function Channel(k: nat): (v: Volume<real>)
      requires Valid() && k < c
      ensures v.Valid() && v.d == d && v.h == h && v.w == w && v.data == data[k]
    {
      Volume(d, h, w, data[k])
    }
  }

  /** Every voxel of channel k holds t. */
  predicate ConstantChannel(f: Field4, k: nat, t: real)
    requires f.Valid() && k < f.c
  {
    forall z: nat, y: nat, x: nat | z < f.d && y < f.h && x < f.w :: Voxel(f.Channel(k), z, y, x) == t
  }

  /** A constant channel holds t at every flat offset. */
  lemma ConstantChannelData(f: Field4, k: nat, t: real)
    requires f.Ready() && k < f.c && ConstantChannel(f, k, t)
    ensures forall i | 0 <= i < |f.data[k]| :: f.data[k][i] == t
  {
    forall i | 0 <= i < |f.data[k]|
      ensures f.data[k][i] == t
    {
      FlatUnflat(i, f.d, f.h, f.w);
      var c := Unflat(i, f.h, f.w);
      assert Voxel(f.Channel(k), c.z, c.y, c.x) == t;
    }
  }

  /** `clamp(0, size - 1)` on every axis; defined only for non-empty axes, as `f32::clamp`
    * panics when the upper bound is below the lower one. */
  function ClampPoint<T>(v: Volume<T>, p: Point3): Point3
    requires v.d >= 1 && v.h >= 1 && v.w >= 1
  {
    Point3(Clamp(p.z, 0.0, (v.d - 1) as real), Clamp(p.y, 0.0, (v.h - 1) as real),
           Clamp(p.x, 0.0, (v.w - 1) as real))
  }

  /** The clamped point lies in the box, so the loose rule accepts it. */
  lemma ClampPointInBox<T>(v: Volume<T>, p: Point3)
    requires v.d >= 1 && v.h >= 1 && v.w >= 1
    ensures var q := ClampPoint(v, p);
            LooseInside(v, q) && 0.0 <= q.z <= (v.d - 1) as real
            && 0.0 <= q.y <= (v.h - 1) as real && 0.0 <= q.x <= (v.w - 1) as real
  {}

  /** `trilinear_interp_nearest_mode`: clamp the point into the volume, then blend the eight
    * corners with clamped upper indices. NearestIsClampedLoose states what this computes. */
  function NearestModeInterp(v: Volume<real>, p: Point3): real
    requires v.Valid() && v.d >= 1 && v.h >= 1 && v.w >= 1
  {
    var q := ClampPoint(v, p);
    var z0, y0, x0 := Floor(q.z), Floor(q.y), Floor(q.x);
    var idx := CornerIndices(z0, Upper(z0, v.d), y0, Upper(y0, v.h), x0, Upper(x0, v.w), v.h, v.w);
    assert idx == LooseIndices(z0, y0, x0, v.d, v.h, v.w);
    Blend(Gather(v.data, Exact, idx), Frac(q.z), Frac(q.y), Frac(q.x))
  }

  /** The lookup never rejects: it is the loose lookup at the clamped point, which the clamp
    * always makes acceptable. */
  lemma NearestIsClampedLoose(v: Volume<real>, p: Point3)
    requires v.Valid() && v.d >= 1 && v.h >= 1 && v.w >= 1
    ensures SampleLoose(v, Exact, ClampPoint(v, p)) == Some(NearestModeInterp(v, p))
  {
    var q := ClampPoint(v, p);
    var z0, y0, x0 := Floor(q.z), Floor(q.y), Floor(q.x);
    assert CornerIndices(z0, Upper(z0, v.d), y0, Upper(y0, v.h), x0, Upper(x0, v.w), v.h, v.w)
        == LooseIndices(z0, y0, x0, v.d, v.h, v.w);
  }

  /** A point already inside the box is read as is: on it the lookup is the loose lookup. */
  lemma NearestInsideIsLoose(v: Volume<real>, p: Point3)
    requires v.Valid() && v.d >= 1 && v.h >= 1 && v.w >= 1
    requires 0.0 <= p.z <= (v.d - 1) as real && 0.0 <= p.y <= (v.h - 1) as real
    requires 0.0 <= p.x <= (v.w - 1) as real
    ensures SampleLoose(v, Exact, p) == Some(NearestModeInterp(v, p))
  {
    NearestIsClampedLoose(v, p);
    assert ClampPoint(v, p) == p;
  }

  /** Clamping first changes nothing: a point outside the box reads the value at the nearest
    * point of the box. */
  lemma NearestClampIdempotent(v: Volume<real>, p: Point3)
    requires v.Valid() && v.d >= 1 && v.h >= 1 && v.w >= 1
    ensures NearestModeInterp(v, ClampPoint(v, p)) == NearestModeInterp(v, p)
  {
    NearestIsClampedLoose(v, p);
    NearestIsClampedLoose(v, ClampPoint(v, p));
    assert ClampPoint(v, ClampPoint(v, p)) == ClampPoint(v, p);
  }

  /** At a grid point of the box the lookup returns that voxel exactly. */
  lemma NearestAtGridPoint(v: Volume<real>, z: nat, y: nat, x: nat)
    requires v.Valid() && z < v.d && y < v.h && x < v.w
    ensures NearestModeInterp(v, Point3(z as real, y as real, x as real)) == Voxel(v, z, y, x)
  {
    var p := Point3(z as real, y as real, x as real);
    NearestIsClampedLoose(v, p);
    assert ClampPoint(v, p) == p;
    SampleLooseInsideGridPoint(v, Exact, z, y, x);
  }

  /** The lookup never leaves the range of the channel's values. */
  lemma NearestWithin(v: Volume<real>, p: Point3, lo: real, hi: real)
    requires v.Valid() && v.d >= 1 && v.h >= 1 && v.w >= 1
    requires forall i | 0 <= i < |v.data| :: lo <= v.data[i] <= hi
    ensures lo <= NearestModeInterp(v, p) <= hi
  {
    NearestIsClampedLoose(v, p);
    SampleLooseWithin(v, Exact, ClampPoint(v, p), lo, hi);
  }

  /** A constant channel interpolates to that constant everywhere, inside or outside. */
  lemma NearestOfConstant(v: Volume<real>, p: Point3, k: real)
    requires v.Valid() && v.d >= 1 && v.h >= 1 && v.w >= 1
    requires forall i | 0 <= i < |v.data| :: v.data[i] == k
    ensures NearestModeInterp(v, p) == k
  {
    NearestWithin(v, p, k, k);
  }
}
