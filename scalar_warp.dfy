/** The portable warp path: the field interpolator `trilinear_interp_warp_field_f32` with its
  * helper `interp_8_neighbors_warp`, the image lookups `trilinear_interp_image_warp_*`, and the
  * drivers `apply_warp_3d_{f32,f16,u8}_scalar`. */
module ScalarWarp {
  import opened Wrappers
  import opened Layout
  import opened Trilinear
  import opened Storage
  import opened Field

  // ---------------------------------------------------------------- the field lookup

  /** One displacement channel of `interp_8_neighbors_warp`: the eight corner values at the given
    * offsets, weighted by w000 … w111 in the lane order. */
  function Neighbors8(ch: seq<real>, idx: seq<int>, ws: seq<real>): real
    requires |idx| == 8 && AllBelow(idx, |ch|) && |ws| == 8
  {
    Weighted(Gather(ch, Exact, idx), ws)
  }

  /** `interp_8_neighbors_warp`: the weights are computed once from the fractions and applied to
    * the eight corners of each of the three displacement channels. */
  function Interp8NeighborsWarp(dz: seq<real>, dy: seq<real>, dx: seq<real>, h: int, w: int,
                                z0: int, y0: int, x0: int, z1: int, y1: int, x1: int,
                                fz: real, fy: real, fx: real): Point3
    requires var idx := CornerIndices(z0, z1, y0, y1, x0, x1, h, w);
             AllBelow(idx, |dz|) && AllBelow(idx, |dy|) && AllBelow(idx, |dx|)
  {
    var idx := CornerIndices(z0, z1, y0, y1, x0, x1, h, w);
    var ws := Weights(fz, fy, fx);
    Point3(Neighbors8(dz, idx, ws), Neighbors8(dy, idx, ws), Neighbors8(dx, idx, ws))
  }

  /** The three displacements of the nearest-mode lookup at p. */
  function NearestDisplacement(f: Field4, p: Point3): Point3
    requires f.Ready()
  {
    Point3(NearestModeInterp(f.Channel(0), p), NearestModeInterp(f.Channel(1), p),
           NearestModeInterp(f.Channel(2), p))
  }

  /** `trilinear_interp_warp_field_f32`: off the interior (strict rule) the point is clamped into
    * the field and the upper corners are clamped; in the interior the corners floor + 1 are used
    * unclamped. WarpFieldIsNearest states what this computes. */
  function WarpFieldInterp(f: Field4, p: Point3): Point3
    requires f.Ready()
  {
    if !(Strict(Floor(p.z), f.d) && Strict(Floor(p.y), f.h) && Strict(Floor(p.x), f.w)) then
      WarpFieldBoundary(f, p)
    else
      WarpFieldInterior(f, p)
  }

  /** The boundary branch of `trilinear_interp_warp_field_f32`: clamp the point into the field,
    * take its floors as lower corners and clamp the upper corners. */
  function WarpFieldBoundary(f: Field4, p: Point3): Point3
    requires f.Ready()
  {
    hide NearestDisplacement;
    var q := ClampPoint(f.Channel(0), p);
    var zc, yc, xc := Floor(q.z), Floor(q.y), Floor(q.x);
    BoundaryBranchIsNearest(f, p, q);
    Interp8NeighborsWarp(f.data[0], f.data[1], f.data[2], f.h, f.w, zc, yc, xc,
                         Upper(zc, f.d), Upper(yc, f.h), Upper(xc, f.w),
                         Frac(q.z), Frac(q.y), Frac(q.x))
  }

  /** The interior branch of `trilinear_interp_warp_field_f32`: corners floor and floor + 1,
    * unclamped. */
  function WarpFieldInterior(f: Field4, p: Point3): Point3
    requires f.Ready()
    requires Strict(Floor(p.z), f.d) && Strict(Floor(p.y), f.h) && Strict(Floor(p.x), f.w)
  {
    var z0, y0, x0 := Floor(p.z), Floor(p.y), Floor(p.x);
    InteriorBranchIsNearest(f, p, z0, y0, x0);
    Interp8NeighborsWarp(f.data[0], f.data[1], f.data[2], f.h, f.w, z0, y0, x0,
                         z0 + 1, y0 + 1, x0 + 1, Frac(p.z), Frac(p.y), Frac(p.x))
  }

  /** Either way the field lookup is, channel by channel, the nearest-mode lookup used for
    * upsampling: it never rejects a point, and off the field it reads the nearest point of the
    * field. */
  lemma WarpFieldIsNearest(f: Field4, p: Point3)
    requires f.Ready()
    ensures WarpFieldInterp(f, p) == NearestDisplacement(f, p)
  {
    if !(Strict(Floor(p.z), f.d) && Strict(Floor(p.y), f.h) && Strict(Floor(p.x), f.w)) {
      WarpFieldBoundaryIsNearest(f, p);
    } else {
      WarpFieldInteriorIsNearest(f, p);
    }
  }

  lemma WarpFieldBoundaryIsNearest(f: Field4, p: Point3)
    requires f.Ready()
    ensures WarpFieldBoundary(f, p) == NearestDisplacement(f, p)
  {
    BoundaryBranchIsNearest(f, p, ClampPoint(f.Channel(0), p));
  }

  lemma WarpFieldInteriorIsNearest(f: Field4, p: Point3)
    requires f.Ready()
    requires Strict(Floor(p.z), f.d) && Strict(Floor(p.y), f.h) && Strict(Floor(p.x), f.w)
    ensures WarpFieldInterior(f, p) == NearestDisplacement(f, p)
  {
    hide Interp8NeighborsWarp, NearestDisplacement;
    var z0, y0, x0 := Floor(p.z), Floor(p.y), Floor(p.x);
    InteriorBranchIsNearest(f, p, z0, y0, x0);
    assert WarpFieldInterior(f, p) == Interp8NeighborsWarp(f.data[0], f.data[1], f.data[2], f.h, f.w, z0, y0, x0,
                         z0 + 1, y0 + 1, x0 + 1, Frac(p.z), Frac(p.y), Frac(p.x));
  }

  /** Boundary branch: the clamped corners are in bounds and are the ones the nearest-mode
    * lookup reads. */
  lemma BoundaryBranchIsNearest(f: Field4, p: Point3, q: Point3)
    requires f.Ready()
    requires q == ClampPoint(f.Channel(0), p)
    ensures var zc, yc, xc := Floor(q.z), Floor(q.y), Floor(q.x);
            var idx := CornerIndices(zc, Upper(zc, f.d), yc, Upper(yc, f.h), xc, Upper(xc, f.w),
                                     f.h, f.w);
            AllBelow(idx, |f.data[0]|) && AllBelow(idx, |f.data[1]|) && AllBelow(idx, |f.data[2]|)
    ensures var zc, yc, xc := Floor(q.z), Floor(q.y), Floor(q.x);
            Interp8NeighborsWarp(f.data[0], f.data[1], f.data[2], f.h, f.w, zc, yc, xc,
                                 Upper(zc, f.d), Upper(yc, f.h), Upper(xc, f.w),
                                 Frac(q.z), Frac(q.y), Frac(q.x))
              == NearestDisplacement(f, p)
  {
    ChannelBoundaryIsNearest(f.Channel(0), p, q);
    ChannelBoundaryIsNearest(f.Channel(1), p, q);
    ChannelBoundaryIsNearest(f.Channel(2), p, q);
  }

  /** One channel of the boundary branch. */
  lemma ChannelBoundaryIsNearest(v: Volume<real>, p: Point3, q: Point3)
    requires v.Valid() && v.d >= 1 && v.h >= 1 && v.w >= 1 && q == ClampPoint(v, p)
    ensures var zc, yc, xc := Floor(q.z), Floor(q.y), Floor(q.x);
            var idx := CornerIndices(zc, Upper(zc, v.d), yc, Upper(yc, v.h), xc, Upper(xc, v.w),
                                     v.h, v.w);
            AllBelow(idx, |v.data|)
            && Neighbors8(v.data, idx, Weights(Frac(q.z), Frac(q.y), Frac(q.x)))
                 == NearestModeInterp(v, p)
  {
    var zc, yc, xc := Floor(q.z), Floor(q.y), Floor(q.x);
    var idx := LooseIndices(zc, yc, xc, v.d, v.h, v.w);
    assert idx == CornerIndices(zc, Upper(zc, v.d), yc, Upper(yc, v.h), xc, Upper(xc, v.w), v.h, v.w);
    WeightedIsBlend(Gather(v.data, Exact, idx), Frac(q.z), Frac(q.y), Frac(q.x));
  }

  /** Interior branch: where the strict rule holds the unclamped corners floor + 1 are in bounds;
    * the clamp changes nothing there and the clamped upper corners are floor + 1, so these are
    * the nearest-mode corners. */
  lemma InteriorBranchIsNearest(f: Field4, p: Point3, z0: int, y0: int, x0: int)
    requires f.Ready()
    requires z0 == Floor(p.z) && y0 == Floor(p.y) && x0 == Floor(p.x)
    requires Strict(z0, f.d) && Strict(y0, f.h) && Strict(x0, f.w)
    ensures var idx := CornerIndices(z0, z0 + 1, y0, y0 + 1, x0, x0 + 1, f.h, f.w);
            AllBelow(idx, |f.data[0]|) && AllBelow(idx, |f.data[1]|) && AllBelow(idx, |f.data[2]|)
    ensures Interp8NeighborsWarp(f.data[0], f.data[1], f.data[2], f.h, f.w, z0, y0, x0,
                                 z0 + 1, y0 + 1, x0 + 1, Frac(p.z), Frac(p.y), Frac(p.x))
              == NearestDisplacement(f, p)
  {
    ChannelInteriorAt(f.Channel(0), p, z0, y0, x0);
    ChannelInteriorAt(f.Channel(1), p, z0, y0, x0);
    ChannelInteriorAt(f.Channel(2), p, z0, y0, x0);
  }

  /** One channel of the interior branch, with the floors named. */
  lemma ChannelInteriorAt(v: Volume<real>, p: Point3, z0: int, y0: int, x0: int)
    requires v.Valid() && v.d >= 1 && v.h >= 1 && v.w >= 1
    requires z0 == Floor(p.z) && y0 == Floor(p.y) && x0 == Floor(p.x)
    requires Strict(z0, v.d) && Strict(y0, v.h) && Strict(x0, v.w)
    ensures var idx := CornerIndices(z0, z0 + 1, y0, y0 + 1, x0, x0 + 1, v.h, v.w);
            AllBelow(idx, |v.data|)
            && Neighbors8(v.data, idx, Weights(Frac(p.z), Frac(p.y), Frac(p.x)))
                 == NearestModeInterp(v, p)
  {
    ChannelInteriorIsNearest(v, p);
  }

  /** One channel of the interior branch. */
  lemma ChannelInteriorIsNearest(v: Volume<real>, p: Point3)
    requires v.Valid() && v.d >= 1 && v.h >= 1 && v.w >= 1 && StrictInside(v, p)
    ensures var z0, y0, x0 := Floor(p.z), Floor(p.y), Floor(p.x);
            var idx := CornerIndices(z0, z0 + 1, y0, y0 + 1, x0, x0 + 1, v.h, v.w);
            AllBelow(idx, |v.data|)
            && Neighbors8(v.data, idx, Weights(Frac(p.z), Frac(p.y), Frac(p.x)))
                 == NearestModeInterp(v, p)
  {
    hide Blend, Weighted, Weights;
    var z0, y0, x0 := Floor(p.z), Floor(p.y), Floor(p.x);
    StrictIndicesAreLoose(z0, y0, x0, v.d, v.h, v.w);
    NearestInsideIsLoose(v, p);
    var idx := LooseIndices(z0, y0, x0, v.d, v.h, v.w);
    WeightedIsBlend(Gather(v.data, Exact, idx), Frac(p.z), Frac(p.y), Frac(p.x));
  }

  // ---------------------------------------------------------------- the image lookup

  /** The image lookups first move a coordinate in (-1e-5, 0) to 0, so that rounding error just
    * below the first plane, row or column does not reject the point. */
  function SnapPoint(p: Point3): Point3
  {
    Point3(Snap(p.z), Snap(p.y), Snap(p.x))
  }

  /** `trilinear_interp_image_warp_{f32,f16,u8}`: snap, then the loose lookup of the image
    * (elements read through `load`), or `cval` when it rejects the point. */
  function ImageWarpInterp<T>(v: Volume<T>, load: T -> real, p: Point3, cval: real): (r: real)
    requires v.Valid()
    ensures !LooseInside(v, SnapPoint(p)) ==> r == cval
    ensures LooseInside(v, SnapPoint(p)) ==> SampleLoose(v, load, SnapPoint(p)) == Some(r)
  {
    SampleLoose(v, load, SnapPoint(p)).GetOr(cval)
  }

  /** A coordinate a hair below zero is read as zero, where the loose lookup alone would reject
    * it (its floor is -1). */
  lemma ImageWarpSnapsTinyNegative<T>(v: Volume<T>, load: T -> real, p: Point3, cval: real)
    requires v.Valid() && -0.00001 < p.z < 0.0
    ensures SampleLoose(v, load, p) == None
    ensures ImageWarpInterp(v, load, p, cval) == ImageWarpInterp(v, load, Point3(0.0, p.y, p.x), cval)
  {
    assert Floor(p.z) == -1;
    assert SnapPoint(p) == SnapPoint(Point3(0.0, p.y, p.x));
  }

  /** At an integer point the lookup reads the voxel there, or gives `cval` off the image. */
  lemma ImageWarpAtGridPoint<T>(v: Volume<T>, load: T -> real, z: int, y: int, x: int, cval: real)
    requires v.Valid()
    ensures 0 <= z < v.d && 0 <= y < v.h && 0 <= x < v.w ==>
              ImageWarpInterp(v, load, Point3(z as real, y as real, x as real), cval)
                == load(Voxel(v, z, y, x))
    ensures !(0 <= z < v.d && 0 <= y < v.h && 0 <= x < v.w) ==>
              ImageWarpInterp(v, load, Point3(z as real, y as real, x as real), cval) == cval
  {
    var p := Point3(z as real, y as real, x as real);
    assert SnapPoint(p) == p;
    SampleLooseAtGridPoint(v, load, z, y, x);
  }

  // ---------------------------------------------------------------- the warp drivers' result

  /** What the warp drivers need: a well-formed image and field with at least the three
    * displacement channels, the field non-empty on every axis whenever there is an output voxel
    * to compute (`f32::clamp` on an empty axis would panic). */
  predicate WarpInputs<T>(image: Volume<T>, f: Field4)
  {
    image.Valid() && f.Valid() && f.c >= 3
    && (|image.data| > 0 ==> f.d >= 1 && f.h >= 1 && f.w >= 1)
  }

  /** The image's voxels end where a plane past the last one would begin. */
  lemma ImageEnd<T>(image: Volume<T>, f: Field4)
    requires WarpInputs(image, f)
    ensures Flat(image.d, 0, 0, image.h, image.w) == |image.data|
  {
    FlatEnd(image.d, image.h, image.w);
  }

  /** `wf_size as f32 / img_size as f32`. The drivers only use it inside their loops, where the
    * image size is positive; 0 stands in for the unused quotient of an empty axis. */
  function WarpScale(wf: nat, img: nat): real
  {
    if img == 0 then 0.0 else wf as real / img as real
  }

  /** The scale maps the image extent onto the field extent. */
  lemma WarpScaleSpansField(wf: nat, img: nat)
    requires img > 0
    ensures WarpScale(wf, img) * img as real == wf as real
  {}

  /** One axis of the field coordinate, `o * scale - 0.5`: the CUDA normalised-texture
    * convention. */
  function FieldCoord(o: nat, scale: real): real
  {
    o as real * scale - 0.5
  }

  /** The field coordinate of output voxel c. */
  function FieldPoint(f: Field4, d: nat, h: nat, w: nat, c: Cell): Point3
  {
    Point3(FieldCoord(c.z, WarpScale(f.d, d)), FieldCoord(c.y, WarpScale(f.h, h)),
           FieldCoord(c.x, WarpScale(f.w, w)))
  }

  /** The image point output voxel c reads: c minus the field's displacement at c's field
    * coordinate, which WarpFieldIsNearest shows to be the nearest-mode lookup of the field. */
  function WarpSource(f: Field4, d: nat, h: nat, w: nat, c: Cell): Point3
    requires f.Ready()
  {
    var disp := NearestDisplacement(f, FieldPoint(f, d, h, w, c));
    Point3(c.z as real - disp.z, c.y as real - disp.y, c.x as real - disp.x)
  }

  /** Output voxel c of a warp: the image read at the voxel's source point, with `cvalF` where
    * that lookup rejects, stored through `store`. */
  function WarpCell<T>(image: Volume<T>, load: T -> real, store: real -> T, cvalF: real,
                       f: Field4, c: Cell): T
    requires image.Valid() && f.Ready()
  {
    store(ImageWarpInterp(image, load, WarpSource(f, image.d, image.h, image.w, c), cvalF))
  }

  /** Unfolds one cell: the cell is the stored lookup at its source point. */
  lemma WarpCellFrom<T>(image: Volume<T>, load: T -> real, store: real -> T, cvalF: real,
                        f: Field4, c: Cell, src: Point3)
    requires image.Valid() && f.Ready()
    requires src == WarpSource(f, image.d, image.h, image.w, c)
    ensures WarpCell(image, load, store, cvalF, f, c) == store(ImageWarpInterp(image, load, src, cvalF))
  {}

  /** The whole output, which has the image's shape, flat and row-major. */
  function WarpVolume<T>(image: Volume<T>, load: T -> real, store: real -> T, cvalF: real,
                         f: Field4): (out: seq<T>)
    requires WarpInputs(image, f)
    ensures |out| == |image.data|
  {
    seq(|image.data|, i requires 0 <= i < |image.data| => WarpCellAt(image, load, store, cvalF, f, i))
  }

  /** Element i of the flat output: the cell at the voxel i names. */
  function WarpCellAt<T>(image: Volume<T>, load: T -> real, store: real -> T, cvalF: real,
                         f: Field4, i: nat): T
    requires WarpInputs(image, f) && i < |image.data|
  {
    WarpCell(image, load, store, cvalF, f, Unflat(i, image.h, image.w))
  }

  /** Voxel (z, y, x) of the output holds that voxel's cell value. */
  lemma WarpVolumeAt<T>(image: Volume<T>, load: T -> real, store: real -> T, cvalF: real,
                        f: Field4, z: nat, y: nat, x: nat)
    requires WarpInputs(image, f) && z < image.d && y < image.h && x < image.w
    ensures 0 <= Flat(z, y, x, image.h, image.w) < |image.data|
    ensures f.Ready()
    ensures WarpVolume(image, load, store, cvalF, f)[Flat(z, y, x, image.h, image.w)]
         == WarpCell(image, load, store, cvalF, f, Cell(z, y, x))
  {
    FlatInBounds(z, y, x, image.d, image.h, image.w);
    UnflatFlat(z, y, x, image.h, image.w);
  }

  // ---------------------------------------------------------------- what the drivers compute

  /** A field that displaces every point by the same integers (t_z, t_y, t_x) reads voxel
    * c - t of the image without blending, or stores `cvalF` when that voxel is off the image.
    * A zero field is the identity warp; a field of ones shifts the image by one voxel. */
  lemma WarpConstantDisplacement<T>(image: Volume<T>, load: T -> real, store: real -> T,
                                    cvalF: real, f: Field4, tz: int, ty: int, tx: int, c: Cell)
    requires image.Valid() && f.Ready()
    requires ConstantChannel(f, 0, tz as real) && ConstantChannel(f, 1, ty as real)
    requires ConstantChannel(f, 2, tx as real)
    ensures var sz, sy, sx := c.z - tz, c.y - ty, c.x - tx;
            0 <= sz < image.d && 0 <= sy < image.h && 0 <= sx < image.w ==>
              WarpCell(image, load, store, cvalF, f, c) == store(load(Voxel(image, sz, sy, sx)))
    ensures var sz, sy, sx := c.z - tz, c.y - ty, c.x - tx;
            !(0 <= sz < image.d && 0 <= sy < image.h && 0 <= sx < image.w) ==>
              WarpCell(image, load, store, cvalF, f, c) == store(cvalF)
  {
    hide *;
    var src := Point3((c.z - tz) as real, (c.y - ty) as real, (c.x - tx) as real);
    WarpSourceOfConstant(f, image.d, image.h, image.w, tz, ty, tx, c);
    WarpCellFrom(image, load, store, cvalF, f, c, src);
    ImageWarpAtGridPoint(image, load, c.z - tz, c.y - ty, c.x - tx, cvalF);
  }

  /** Under a constant integer field the source point is the output voxel minus the constants. */
  lemma WarpSourceOfConstant(f: Field4, d: nat, h: nat, w: nat, tz: int, ty: int, tx: int, c: Cell)
    requires f.Ready()
    requires ConstantChannel(f, 0, tz as real) && ConstantChannel(f, 1, ty as real)
    requires ConstantChannel(f, 2, tx as real)
    ensures WarpSource(f, d, h, w, c) == Point3((c.z - tz) as real, (c.y - ty) as real, (c.x - tx) as real)
  {
    ConstantChannelData(f, 0, tz as real);
    ConstantChannelData(f, 1, ty as real);
    ConstantChannelData(f, 2, tx as real);
    WarpFieldOfConstant(f, FieldPoint(f, d, h, w, c), tz as real, ty as real, tx as real);
  }

  /** A constant field displaces every point by its three constants. */
  lemma WarpFieldOfConstant(f: Field4, p: Point3, kz: real, ky: real, kx: real)
    requires f.Ready()
    requires forall i | 0 <= i < |f.data[0]| :: f.data[0][i] == kz
    requires forall i | 0 <= i < |f.data[1]| :: f.data[1][i] == ky
    requires forall i | 0 <= i < |f.data[2]| :: f.data[2][i] == kx
    ensures WarpFieldInterp(f, p) == Point3(kz, ky, kx)
    ensures NearestDisplacement(f, p) == Point3(kz, ky, kx)
  {
    WarpFieldIsNearest(f, p);
    NearestOfConstant(f.Channel(0), p, kz);
    NearestOfConstant(f.Channel(1), p, ky);
    NearestOfConstant(f.Channel(2), p, kx);
  }

  /** A zero displacement field copies the image voxel for voxel, provided storing a loaded
    * element gives the element back. */
  lemma WarpZeroFieldCopies<T>(image: Volume<T>, load: T -> real, store: real -> T, cvalF: real,
                               f: Field4)
    requires WarpInputs(image, f)
    requires ConstantChannel(f, 0, 0.0) && ConstantChannel(f, 1, 0.0) && ConstantChannel(f, 2, 0.0)
    requires forall e :: store(load(e)) == e
    ensures WarpVolume(image, load, store, cvalF, f) == image.data
  {
    var out := WarpVolume(image, load, store, cvalF, f);
    forall i | 0 <= i < |image.data|
      ensures out[i] == image.data[i]
    {
      FlatUnflat(i, image.d, image.h, image.w);
      var c := Unflat(i, image.h, image.w);
      WarpZeroFieldCell(image, load, store, cvalF, f, c);
      assert out[i] == WarpCell(image, load, store, cvalF, f, c);
    }
  }

  /** Under a zero field, cell c is the image voxel c. */
  lemma WarpZeroFieldCell<T>(image: Volume<T>, load: T -> real, store: real -> T, cvalF: real,
                             f: Field4, c: Cell)
    requires image.Valid() && f.Ready() && InBox(c, image.d, image.h, image.w)
    requires ConstantChannel(f, 0, 0.0) && ConstantChannel(f, 1, 0.0) && ConstantChannel(f, 2, 0.0)
    requires forall e :: store(load(e)) == e
    ensures 0 <= Flat(c.z, c.y, c.x, image.h, image.w) < |image.data|
    ensures WarpCell(image, load, store, cvalF, f, c) == image.data[Flat(c.z, c.y, c.x, image.h, image.w)]
  {
    hide WarpCell;
    FlatInBounds(c.z, c.y, c.x, image.d, image.h, image.w);
    WarpConstantDisplacement(image, load, store, cvalF, f, 0, 0, 0, c);
  }

  /** In the u8 driver a voxel whose source point is rejected keeps the u8 `cval`: it survives
    * the round trip through f32 and `round().clamp(0, 255)`. An accepted one is the rounded
    * blend, which lies in [0, 255]. */
  lemma WarpU8Cell(image: Volume<byte>, f: Field4, cval: byte, c: Cell)
    requires image.Valid() && f.Ready()
    ensures var r := SampleLoose(image, ByteToReal, SnapPoint(WarpSource(f, image.d, image.h, image.w, c)));
            WarpCell(image, ByteToReal, ByteFromWarp, ByteToReal(cval), f, c)
              == if r.None? then cval else ByteFromWarp(r.value)
    ensures var r := SampleLoose(image, ByteToReal, SnapPoint(WarpSource(f, image.d, image.h, image.w, c)));
            r.Some? ==> 0.0 <= r.value <= 255.0
  {
    var src := WarpSource(f, image.d, image.h, image.w, c);
    ByteFromWarpOfByte(cval);
    if LooseInside(image, SnapPoint(src)) {
      SampleLooseWithin(image, ByteToReal, SnapPoint(src), 0.0, 255.0);
    }
  }

  // ---------------------------------------------------------------- the drivers

  /** The body of the drivers' innermost loop for output voxel (oz, oy, ox), given the three
    * field scales. */
  method WarpVoxel<T>(image: Volume<T>, load: T -> real, store: real -> T, cvalF: real, f: Field4,
                      scaleZ: real, scaleY: real, scaleX: real, oz: nat, oy: nat, ox: nat)
    returns (value: T)
    requires WarpInputs(image, f) && oz < image.d && oy < image.h && ox < image.w
    requires scaleZ == WarpScale(f.d, image.d) && scaleY == WarpScale(f.h, image.h)
    requires scaleX == WarpScale(f.w, image.w)
    ensures 0 <= Flat(oz, oy, ox, image.h, image.w) < |image.data|
    ensures value == WarpVolume(image, load, store, cvalF, f)[Flat(oz, oy, ox, image.h, image.w)]
  {
    WarpVolumeAt(image, load, store, cvalF, f, oz, oy, ox);
    var fieldPoint := Point3(FieldCoord(oz, scaleZ), FieldCoord(oy, scaleY), FieldCoord(ox, scaleX));
    var disp := WarpFieldInterp(f, fieldPoint);
    var src := Point3(oz as real - disp.z, oy as real - disp.y, ox as real - disp.x);
    value := store(ImageWarpInterp(image, load, src, cvalF));
    WarpCellByField(image, load, store, cvalF, f, Cell(oz, oy, ox), fieldPoint, disp);
  }

  /** The drivers' way of computing a cell, through the field lookup itself at the field point
    * they compute, agrees with the cell's definition. */
  lemma WarpCellByField<T>(image: Volume<T>, load: T -> real, store: real -> T, cvalF: real,
                           f: Field4, c: Cell, fieldPoint: Point3, disp: Point3)
    requires image.Valid() && f.Ready()
    requires fieldPoint == FieldPoint(f, image.d, image.h, image.w, c)
    requires disp == WarpFieldInterp(f, fieldPoint)
    ensures WarpCell(image, load, store, cvalF, f, c)
         == store(ImageWarpInterp(image, load, Point3(c.z as real - disp.z, c.y as real - disp.y,
                                                      c.x as real - disp.x), cvalF))
  {
    WarpFieldIsNearest(f, fieldPoint);
    WarpCellFrom(image, load, store, cvalF, f, c,
                 Point3(c.z as real - disp.z, c.y as real - disp.y, c.x as real - disp.x));
  }

  /** The innermost loop of the drivers, over row (oz, oy) of the output: the voxels before the
    * row already hold their warped values; afterwards the row does too, and the voxels after
    * it are untouched. */
  method WarpRow<T>(image: Volume<T>, load: T -> real, store: real -> T, cvalF: real, f: Field4,
                    scaleZ: real, scaleY: real, scaleX: real, oz: nat, oy: nat,
                    output: array<T>, ghost spec: seq<T>)
    requires WarpInputs(image, f) && oz < image.d && oy < image.h
    requires scaleZ == WarpScale(f.d, image.d) && scaleY == WarpScale(f.h, image.h)
    requires scaleX == WarpScale(f.w, image.w)
    requires spec == WarpVolume(image, load, store, cvalF, f) && output.Length == |spec|
    requires Flat(oz, oy, 0, image.h, image.w) <= output.Length
    requires forall i | 0 <= i < Flat(oz, oy, 0, image.h, image.w) :: output[i] == spec[i]
    modifies output
    ensures Flat(oz, oy + 1, 0, image.h, image.w) <= output.Length
    ensures forall i | 0 <= i < Flat(oz, oy + 1, 0, image.h, image.w) :: output[i] == spec[i]
    ensures forall i | 0 <= i < output.Length && Flat(oz, oy + 1, 0, image.h, image.w) <= i ::
              output[i] == old(output[i])
  {
    hide WarpVolume, WarpCellAt, WarpCell, WarpScale, WarpInputs;
    var h, w := image.h, image.w;
    for ox := 0 to w
      invariant Flat(oz, oy, ox, h, w) <= output.Length
      invariant forall i | 0 <= i < Flat(oz, oy, ox, h, w) :: output[i] == spec[i]
      invariant forall i | 0 <= i < output.Length && Flat(oz, oy, ox, h, w) <= i ::
                  output[i] == old(output[i])
    {
      var value := WarpVoxel(image, load, store, cvalF, f, scaleZ, scaleY, scaleX, oz, oy, ox);
      // the offset oz * img_stride_z + oy * img_stride_y + ox, img_stride_z being h * w
      var outIdx := Flat(oz, oy, ox, h, w);
      FlatNextVoxel(oz, oy, ox, h, w);
      ghost var before := output[..];
      output[outIdx] := value;
      assert output[..] == before[outIdx := spec[outIdx]];
    }
    FlatNextRow(oz, oy, h, w);
  }

  /** The loops shared by `apply_warp_3d_{f32,f16,u8}_scalar`: every output voxel, in row-major
    * order, interpolates the field at its field coordinate, reads the image at itself minus the
    * displacement and writes the stored result. */
  method ResampleWarp<T>(image: Volume<T>, load: T -> real, store: real -> T, cvalF: real,
                         f: Field4, output: array<T>)
    requires WarpInputs(image, f) && output.Length == |image.data|
    modifies output
    ensures output[..] == WarpVolume(image, load, store, cvalF, f)
  {
    ImageEnd(image, f);
    hide WarpVolume, WarpCellAt, WarpCell, WarpScale, WarpInputs;
    ghost var spec := WarpVolume(image, load, store, cvalF, f);
    var d, h, w := image.d, image.h, image.w;
    var scaleZ, scaleY, scaleX := WarpScale(f.d, d), WarpScale(f.h, h), WarpScale(f.w, w);
    FlatOrigin(h, w);
    for oz := 0 to d
      invariant Flat(oz, 0, 0, h, w) <= output.Length
      invariant forall i | 0 <= i < Flat(oz, 0, 0, h, w) :: output[i] == spec[i]
    {
      for oy := 0 to h
        invariant Flat(oz, oy, 0, h, w) <= output.Length
        invariant forall i | 0 <= i < Flat(oz, oy, 0, h, w) :: output[i] == spec[i]
      {
        WarpRow(image, load, store, cvalF, f, scaleZ, scaleY, scaleX, oz, oy, output, spec);
      }
      FlatNextPlane(oz, h, w);
    }
  }

  /** `apply_warp_3d_f32_scalar`: results are stored as computed, `cval` is the fill. */
  method ApplyWarp3DF32Scalar(image: Volume<real>, f: Field4, output: array<real>, cval: real)
    requires WarpInputs(image, f) && output.Length == |image.data|
    modifies output
    ensures output[..] == WarpVolume(image, Exact, Exact, cval, f)
  {
    ResampleWarp(image, Exact, Exact, cval, f, output);
  }

  /** `apply_warp_3d_f16_scalar`: f16 elements read with `to_f32`, results stored with
    * `f16::from_f32`, the fill taken as `cval.to_f32()`. */
  method ApplyWarp3DF16Scalar<H>(image: Volume<H>, half: HalfFloat<H>, f: Field4,
                                 output: array<H>, cval: H)
    requires WarpInputs(image, f) && output.Length == |image.data|
    modifies output
    ensures output[..] == WarpVolume(image, half.toF32, half.fromF32, half.toF32(cval), f)
  {
    ResampleWarp(image, half.toF32, half.fromF32, half.toF32(cval), f, output);
  }

  /** `apply_warp_3d_u8_scalar`: u8 elements read as f32, results rounded and clamped to
    * [0, 255], the fill taken as `cval as f32`. */
  method ApplyWarp3DU8Scalar(image: Volume<byte>, f: Field4, output: array<byte>, cval: byte)
    requires WarpInputs(image, f) && output.Length == |image.data|
    modifies output
    ensures output[..] == WarpVolume(image, ByteToReal, ByteFromWarp, ByteToReal(cval), f)
  {
    ResampleWarp(image, ByteToReal, ByteFromWarp, ByteToReal(cval), f, output);
  }
}
