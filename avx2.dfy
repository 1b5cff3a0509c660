/** The AVX2 affine kernels `trilinear_3d_{f32,f64,f16}_avx2`. Each output row is cut into
  * batches of `lanes` voxels (8 for f32 and f16, 4 for f64) computed in vector registers, and a
  * scalar remainder loop for the last `ow % lanes` voxels. Both use the strict acceptance rule
  * (the unit cell must lie wholly inside the volume), unlike the scalar kernels. */
module Avx2 {
  import opened Wrappers
  import opened Layout
  import opened Trilinear
  import opened Geometry
  import opened Storage
  import opened ScalarAffine

  /** The kernels return at once, writing nothing, when an input axis has fewer than two
    * voxels. */
  predicate Tiny<T>(input: Volume<T>)
  {
    input.d < 2 || input.h < 2 || input.w < 2
  }

  /** The first x index the batch loop (`while ox + lanes - 1 < ow`, stepping by `lanes`) does not
    * reach: the largest multiple of `lanes` not above ow. */
  function BatchEnd(ow: nat, lanes: nat): (e: nat)
    requires lanes >= 1
    ensures e <= ow < e + lanes
  {
    (ow / lanes) * lanes
  }

  /** The batch loop, started at 0, runs through exactly the multiples of `lanes` below
    * BatchEnd: a batch k fits in the row exactly when it ends by BatchEnd. */
  lemma BatchFits(k: nat, ow: nat, lanes: nat)
    requires lanes >= 1
    ensures k * lanes + lanes <= ow <==> (k + 1) * lanes <= BatchEnd(ow, lanes)
  {
    var q := ow / lanes;
    assert (k + 1) * lanes == k * lanes + lanes;
    if k + 1 <= q {
      MulMono(k + 1, q, lanes);
    } else {
      MulMono(q + 1, k + 1, lanes);
      assert (q + 1) * lanes == q * lanes + lanes;
    }
  }

  /** The batch loop stops on BatchEnd: a multiple of `lanes` up to BatchEnd whose batch would
    * overrun the row is BatchEnd itself. */
  lemma BatchLoopStops(k: nat, ow: nat, lanes: nat)
    requires lanes >= 1 && k * lanes <= BatchEnd(ow, lanes) && k * lanes + lanes > ow
    ensures k * lanes == BatchEnd(ow, lanes)
  {
    var q := ow / lanes;
    if k < q {
      MulSucc(k, lanes);
      MulMono(k + 1, q, lanes);
      assert false;
    }
    if k > q {
      MulSucc(q, lanes);
      MulMono(q + 1, k, lanes);
      assert false;
    }
  }

  lemma MulSucc(k: int, n: int)
    ensures (k + 1) * n == k * n + n
  {}

  // ---------------------------------------------------------------- what the kernels compute

  /** What the remainder loop writes at voxel c: the stored strict lookup at its source point,
    * or the fill element when the strict rule rejects the point. */
  function StrictCell<T>(input: Volume<T>, load: T -> real, store: real -> T, fill: T,
                         a: AffineMatrix3D, shift: Shift, c: Cell): T
    requires input.Valid()
  {
    match SampleStrict(input, load, SourcePoint(a, shift, c.z, c.y, c.x))
    case None => fill
    case Some(r) => store(r)
  }

  /** What a vector lane holds in the result register for source point p: the strict lookup,
    * or the fill read back into the working float type when the strict rule rejects p. */
  function LaneValue<T>(input: Volume<T>, load: T -> real, fill: T, p: Point3): real
    requires input.Valid()
  {
    match SampleStrict(input, load, p)
    case None => load(fill)
    case Some(r) => r
  }

  /** What a vector lane writes at voxel c: the vector store converts the lane's result (for a
    * rejected lane, the fill converted there and back). */
  function BatchCell<T>(input: Volume<T>, load: T -> real, store: real -> T, fill: T,
                        a: AffineMatrix3D, shift: Shift, c: Cell): T
    requires input.Valid()
  {
    store(LaneValue(input, load, fill, SourcePoint(a, shift, c.z, c.y, c.x)))
  }

  /** Output voxel c: batch lanes before BatchEnd, the remainder loop from there on. */
  function Avx2Cell<T>(input: Volume<T>, load: T -> real, store: real -> T, fill: T,
                       a: AffineMatrix3D, shift: Shift, lanes: nat, ow: nat, c: Cell): T
    requires input.Valid() && lanes >= 1
  {
    if c.x < BatchEnd(ow, lanes) then BatchCell(input, load, store, fill, a, shift, c)
    else StrictCell(input, load, store, fill, a, shift, c)
  }

  /** The whole od×oh×ow output of a kernel run on an input that is not tiny, flat and
    * row-major. */
  function Avx2Volume<T>(input: Volume<T>, load: T -> real, store: real -> T, fill: T,
                         a: AffineMatrix3D, shift: Shift, lanes: nat,
                         od: nat, oh: nat, ow: nat): (out: seq<T>)
    requires input.Valid() && lanes >= 1
    ensures |out| == od * oh * ow
  {
    if oh == 0 || ow == 0 then
      assert od * oh * ow == 0;
      []
    else
      seq(od * oh * ow, i requires 0 <= i < od * oh * ow =>
            Avx2Cell(input, load, store, fill, a, shift, lanes, ow, Unflat(i, oh, ow)))
  }

  /** Voxel (z, y, x) of the output holds that voxel's cell value. */
  lemma Avx2VolumeAt<T>(input: Volume<T>, load: T -> real, store: real -> T, fill: T,
                        a: AffineMatrix3D, shift: Shift, lanes: nat, od: nat, oh: nat, ow: nat,
                        z: nat, y: nat, x: nat)
    requires input.Valid() && lanes >= 1 && z < od && y < oh && x < ow
    ensures 0 <= Flat(z, y, x, oh, ow) < od * oh * ow
    ensures Avx2Volume(input, load, store, fill, a, shift, lanes, od, oh, ow)[Flat(z, y, x, oh, ow)]
         == Avx2Cell(input, load, store, fill, a, shift, lanes, ow, Cell(z, y, x))
  {
    FlatInBounds(z, y, x, od, oh, ow);
    UnflatFlat(z, y, x, oh, ow);
  }

  // ---------------------------------------------------------------- properties

  /** When the fill survives the round trip through the working float type (always for f32 and
    * f64, whose conversions are exact), a batch lane writes what the remainder loop writes. */
  lemma BatchMatchesRemainder<T>(input: Volume<T>, load: T -> real, store: real -> T, fill: T,
                                 a: AffineMatrix3D, shift: Shift, c: Cell)
    requires input.Valid() && store(load(fill)) == fill
    ensures BatchCell(input, load, store, fill, a, shift, c)
         == StrictCell(input, load, store, fill, a, shift, c)
  {}

  /** Under the same round trip the batching is invisible: every voxel is the strict cell value,
    * whatever the lane count and the row length. */
  lemma Avx2CellIsStrict<T>(input: Volume<T>, load: T -> real, store: real -> T, fill: T,
                            a: AffineMatrix3D, shift: Shift, lanes: nat, ow: nat, c: Cell)
    requires input.Valid() && lanes >= 1 && store(load(fill)) == fill
    ensures Avx2Cell(input, load, store, fill, a, shift, lanes, ow, c)
         == StrictCell(input, load, store, fill, a, shift, c)
  {
    BatchMatchesRemainder(input, load, store, fill, a, shift, c);
  }

  /** Wherever the strict rule accepts the source point, the AVX2 kernels write what the scalar
    * kernels write. */
  lemma Avx2AgreesWithScalar<T>(input: Volume<T>, load: T -> real, store: real -> T, fill: T,
                                a: AffineMatrix3D, shift: Shift, lanes: nat, ow: nat, c: Cell)
    requires input.Valid() && lanes >= 1
    requires StrictInside(input, SourcePoint(a, shift, c.z, c.y, c.x))
    ensures Avx2Cell(input, load, store, fill, a, shift, lanes, ow, c)
         == AffineCell(input, load, store, fill, a, shift, c)
  {
    StrictAgreesWithLoose(input, load, SourcePoint(a, shift, c.z, c.y, c.x));
  }

  /** Wherever the strict rule rejects the source point, the voxel holds the fill (converted
    * there and back in a batch lane). */
  lemma Avx2RejectsToFill<T>(input: Volume<T>, load: T -> real, store: real -> T, fill: T,
                             a: AffineMatrix3D, shift: Shift, lanes: nat, ow: nat, c: Cell)
    requires input.Valid() && lanes >= 1
    requires !StrictInside(input, SourcePoint(a, shift, c.z, c.y, c.x))
    ensures Avx2Cell(input, load, store, fill, a, shift, lanes, ow, c)
         == if c.x < BatchEnd(ow, lanes) then store(load(fill)) else fill
  {}

  /** Under the identity with no shift, a voxel whose unit cell lies inside the volume is copied;
    * a voxel on the last plane, row or column of any axis is rejected, so the AVX2 kernels write
    * the fill there while the scalar kernels copy it. */
  lemma Avx2Identity<T>(input: Volume<T>, load: T -> real, store: real -> T, fill: T,
                        lanes: nat, ow: nat, z: nat, y: nat, x: nat)
    requires input.Valid() && lanes >= 1 && z < input.d && y < input.h && x < input.w
    ensures z + 1 < input.d && y + 1 < input.h && x + 1 < input.w
            ==> Avx2Cell(input, load, store, fill, Identity(), [0.0, 0.0, 0.0], lanes, ow, Cell(z, y, x))
                == store(load(Voxel(input, z, y, x)))
    ensures (z + 1 == input.d || y + 1 == input.h || x + 1 == input.w)
            ==> !StrictInside(input, SourcePoint(Identity(), [0.0, 0.0, 0.0], z, y, x))
    ensures AffineCell(input, load, store, fill, Identity(), [0.0, 0.0, 0.0], Cell(z, y, x))
         == store(load(Voxel(input, z, y, x)))
  {
    var p := SourcePoint(Identity(), [0.0, 0.0, 0.0], z, y, x);
    IdentitySourcePoint([0.0, 0.0, 0.0], z, y, x);
    assert p == Point3(z as real, y as real, x as real);
    assert Floor(p.z) == z && Floor(p.y) == y && Floor(p.x) == x;
    SampleLooseInsideGridPoint(input, load, z, y, x);
    if z + 1 < input.d && y + 1 < input.h && x + 1 < input.w {
      Avx2AgreesWithScalar(input, load, store, fill, Identity(), [0.0, 0.0, 0.0], lanes, ow,
                           Cell(z, y, x));
    }
  }

  /** The whole outputs agree: wherever the strict rule accepts a voxel's source point, the
    * AVX2 kernels' output holds what the scalar kernels' output holds. */
  lemma Avx2VolumeAgreesWithScalar<T>(input: Volume<T>, load: T -> real, store: real -> T, fill: T,
                                      a: AffineMatrix3D, shift: Shift, lanes: nat,
                                      od: nat, oh: nat, ow: nat, i: nat)
    requires input.Valid() && lanes >= 1 && i < od * oh * ow
    requires var c := Unflat(i, oh, ow); StrictInside(input, SourcePoint(a, shift, c.z, c.y, c.x))
    ensures Avx2Volume(input, load, store, fill, a, shift, lanes, od, oh, ow)[i]
         == AffineVolume(input, load, store, fill, a, shift, od, oh, ow)[i]
  {
    AffineVolumeCells(input, load, store, fill, a, shift, od, oh, ow, i);
    Avx2AgreesWithScalar(input, load, store, fill, a, shift, lanes, ow, Unflat(i, oh, ow));
  }

  /** The identity test of the kernels, on the whole output of a d×h×w input: a voxel whose
    * unit cell lies inside the input is copied (through the working float type); a voxel on
    * the last plane, row or column holds the fill, read back into the working type when its
    * column falls in a batch. */
  lemma Avx2VolumeIdentity<T>(input: Volume<T>, load: T -> real, store: real -> T, fill: T,
                              lanes: nat, z: nat, y: nat, x: nat)
    requires input.Valid() && lanes >= 1 && z < input.d && y < input.h && x < input.w
    ensures 0 <= Flat(z, y, x, input.h, input.w) < |input.data|
    ensures var out := Avx2Volume(input, load, store, fill, Identity(), [0.0, 0.0, 0.0], lanes,
                                  input.d, input.h, input.w);
            var v := out[Flat(z, y, x, input.h, input.w)];
            if z + 1 < input.d && y + 1 < input.h && x + 1 < input.w
            then v == store(load(Voxel(input, z, y, x)))
            else v == if x < BatchEnd(input.w, lanes) then store(load(fill)) else fill
  {
    Avx2VolumeAt(input, load, store, fill, Identity(), [0.0, 0.0, 0.0], lanes,
                 input.d, input.h, input.w, z, y, x);
    Avx2Identity(input, load, store, fill, lanes, input.w, z, y, x);
    if !(z + 1 < input.d && y + 1 < input.h && x + 1 < input.w) {
      Avx2RejectsToFill(input, load, store, fill, Identity(), [0.0, 0.0, 0.0], lanes, input.w,
                        Cell(z, y, x));
    }
  }

  // ---------------------------------------------------------------- the kernel

  /** One lane of `_mm256_fmadd`: m * x + b (fused, so rounded once; exact here). */
  function Fma(m: real, x: real, b: real): real
  {
    m * x + b
  }

  /** The lanes' source coordinates: lane x of the row is the fused m[r][2] * x + base[r] on
    * each row r, which is the source point. */
  lemma LaneSourcePoint(a: AffineMatrix3D, shift: Shift, oz: int, oy: int, x: int,
                        mz: real, my: real, mx: real, baseZ: real, baseY: real, baseX: real)
    requires mz == a.m[0][2] && my == a.m[1][2] && mx == a.m[2][2]
    requires baseZ == a.m[0][0] * oz as real + a.m[0][1] * oy as real + shift[0]
    requires baseY == a.m[1][0] * oz as real + a.m[1][1] * oy as real + shift[1]
    requires baseX == a.m[2][0] * oz as real + a.m[2][1] * oy as real + shift[2]
    ensures SourcePoint(a, shift, oz, oy, x)
         == Point3(Fma(mz, x as real, baseZ), Fma(my, x as real, baseY), Fma(mx, x as real, baseX))
  {
    HoistedSourcePoint(a, shift, oz, oy, x, mz, my, mx, baseZ, baseY, baseX);
  }

  /** The source points of lanes ox .. ox + lanes - 1, as the fused vector arithmetic
    * computes them from the broadcast coefficients and bases. */
  function LanePoints(mz: real, my: real, mx: real, baseZ: real, baseY: real, baseX: real,
                      ox: nat, lanes: nat): (ps: seq<Point3>)
    ensures |ps| == lanes
  {
    seq(lanes, j requires 0 <= j < lanes
      => Point3(Fma(mz, (ox + j) as real, baseZ), Fma(my, (ox + j) as real, baseY),
                Fma(mx, (ox + j) as real, baseX)))
  }

  /** Lane j of a batch at ox computes the source point of voxel ox + j. */
  lemma LanePointsAreSourcePoints(a: AffineMatrix3D, shift: Shift, oz: int, oy: int,
                                  mz: real, my: real, mx: real,
                                  baseZ: real, baseY: real, baseX: real, ox: nat, lanes: nat)
    requires mz == a.m[0][2] && my == a.m[1][2] && mx == a.m[2][2]
    requires baseZ == a.m[0][0] * oz as real + a.m[0][1] * oy as real + shift[0]
    requires baseY == a.m[1][0] * oz as real + a.m[1][1] * oy as real + shift[1]
    requires baseX == a.m[2][0] * oz as real + a.m[2][1] * oy as real + shift[2]
    ensures forall j | 0 <= j < lanes ::
              LanePoints(mz, my, mx, baseZ, baseY, baseX, ox, lanes)[j]
              == SourcePoint(a, shift, oz, oy, ox + j)
  {
    forall j | 0 <= j < lanes
      ensures LanePoints(mz, my, mx, baseZ, baseY, baseX, ox, lanes)[j]
              == SourcePoint(a, shift, oz, oy, ox + j)
    {
      LaneSourcePoint(a, shift, oz, oy, ox + j, mz, my, mx, baseZ, baseY, baseX);
    }
  }

  /** Truncating an already floored value is the floor (`_mm256_cvttps_epi32` after
    * `_mm256_floor_ps`). */
  lemma TruncOfFloor(c: real)
    ensures Floor(Floor(c) as real) == Floor(c)
  {}

  /** Lane j of a batch's scalar pass: the strict test on the lane's floors, then the eight
    * corners (at idx000 plus 1, the row stride and the plane stride) weighted with the lane's
    * stored weights; a rejected lane takes `load(fill)`. */
  method BatchLane<T>(input: Volume<T>, load: T -> real, fill: T, z0: int, y0: int, x0: int,
                      weights: array2<real>, j: nat, ghost p: Point3) returns (r: real)
    requires input.Valid()
    requires z0 == Floor(p.z) && y0 == Floor(p.y) && x0 == Floor(p.x)
    requires weights.Length0 == 8 && j < weights.Length1
    requires forall k | 0 <= k < 8 :: weights[k, j] == Weights(Frac(p.z), Frac(p.y), Frac(p.x))[k]
    ensures r == LaneValue(input, load, fill, p)
  {
    var d: int, h: int, w: int := input.d, input.h, input.w;
    if x0 >= 0 && x0 < w - 1 && y0 >= 0 && y0 < h - 1 && z0 >= 0 && z0 < d - 1 {
      var corners := Gather(input.data, load, StrictIndices(z0, y0, x0, d, h, w));
      var ws := [weights[0, j], weights[1, j], weights[2, j], weights[3, j],
                 weights[4, j], weights[5, j], weights[6, j], weights[7, j]];
      assert ws == Weights(Frac(p.z), Frac(p.y), Frac(p.x));
      r := Weighted(corners, ws);
    } else {
      r := load(fill);
    }
  }

  /** The scalar pass over a batch's spilled lanes: lane j has floors zi[j], yi[j], xi[j] and
    * weights column j, all taken from the lane's source point ps[j]. */
  method ResolveLanes<T>(input: Volume<T>, load: T -> real, fill: T,
                         lanes: nat, zi: array<int>, yi: array<int>, xi: array<int>, weights: array2<real>,
                         ghost ps: seq<Point3>) returns (result: array<real>)
    requires input.Valid() && |ps| == lanes
    requires zi.Length == |ps| && yi.Length == |ps| && xi.Length == |ps|
    requires weights.Length0 == 8 && weights.Length1 == |ps|
    requires forall j | 0 <= j < |ps| ::
               zi[j] == Floor(ps[j].z) && yi[j] == Floor(ps[j].y) && xi[j] == Floor(ps[j].x)
    requires forall j, k | 0 <= j < |ps| && 0 <= k < 8 ::
               weights[k, j] == Weights(Frac(ps[j].z), Frac(ps[j].y), Frac(ps[j].x))[k]
    ensures fresh(result) && result.Length == |ps|
    ensures forall j | 0 <= j < |ps| :: result[j] == LaneValue(input, load, fill, ps[j])
  {
    hide LaneValue, Weights;
    result := new real[lanes](_ => 0.0);
    for j := 0 to lanes
      modifies result
      invariant forall jj | 0 <= jj < j :: result[jj] == LaneValue(input, load, fill, ps[jj])
    {
      result[j] := BatchLane(input, load, fill, zi[j], yi[j], xi[j], weights, j, ps[j]);
    }
  }

  /** Lane values taken at the source points of voxels ox, ox + 1, ... of row (oz, oy), once
    * stored, are that run's batch cells. */
  lemma BatchStores<T>(input: Volume<T>, load: T -> real, store: real -> T, fill: T,
                       a: AffineMatrix3D, shift: Shift, oz: nat, oy: nat,
                       ps: seq<Point3>, vals: seq<real>, ox: nat)
    requires input.Valid() && |vals| == |ps|
    requires forall j | 0 <= j < |ps| :: ps[j] == SourcePoint(a, shift, oz, oy, ox + j)
    requires forall j | 0 <= j < |ps| :: vals[j] == LaneValue(input, load, fill, ps[j])
    ensures forall j | 0 <= j < |vals| ::
              store(vals[j]) == BatchCell(input, load, store, fill, a, shift, Cell(oz, oy, ox + j))
  {
    hide LaneValue, SourcePoint;
  }

  /** A batch's vector pass: the lane coordinates (fused m*x + base), their floors and
    * fractions and the eight weights per lane, spilled to per-lane arrays. */
  method LaneCoordinates(lanes: nat, mz: real, my: real, mx: real,
                         baseZ: real, baseY: real, baseX: real, ox: nat)
    returns (zi: array<int>, yi: array<int>, xi: array<int>, weights: array2<real>,
             ghost ps: seq<Point3>)
    ensures fresh(zi) && fresh(yi) && fresh(xi) && fresh(weights)
    ensures ps == LanePoints(mz, my, mx, baseZ, baseY, baseX, ox, lanes)
    ensures zi.Length == |ps| && yi.Length == |ps| && xi.Length == |ps|
    ensures weights.Length0 == 8 && weights.Length1 == |ps|
    ensures forall j | 0 <= j < |ps| ::
              zi[j] == Floor(ps[j].z) && yi[j] == Floor(ps[j].y) && xi[j] == Floor(ps[j].x)
    ensures forall j, k | 0 <= j < |ps| && 0 <= k < 8 ::
              weights[k, j] == Weights(Frac(ps[j].z), Frac(ps[j].y), Frac(ps[j].x))[k]
  {
    hide Weights, Fma;
    var vx := seq(lanes, j requires 0 <= j < lanes => (ox + j) as real);
    var zs := seq(lanes, j requires 0 <= j < lanes => Fma(mz, vx[j], baseZ));
    var ys := seq(lanes, j requires 0 <= j < lanes => Fma(my, vx[j], baseY));
    var xs := seq(lanes, j requires 0 <= j < lanes => Fma(mx, vx[j], baseX));
    var zFloor := seq(lanes, j requires 0 <= j < lanes => Floor(zs[j]) as real);
    var yFloor := seq(lanes, j requires 0 <= j < lanes => Floor(ys[j]) as real);
    var xFloor := seq(lanes, j requires 0 <= j < lanes => Floor(xs[j]) as real);
    var fz := seq(lanes, j requires 0 <= j < lanes => zs[j] - zFloor[j]);
    var fy := seq(lanes, j requires 0 <= j < lanes => ys[j] - yFloor[j]);
    var fx := seq(lanes, j requires 0 <= j < lanes => xs[j] - xFloor[j]);
    zi := new int[lanes](j requires 0 <= j < lanes => Floor(zFloor[j]));
    yi := new int[lanes](j requires 0 <= j < lanes => Floor(yFloor[j]));
    xi := new int[lanes](j requires 0 <= j < lanes => Floor(xFloor[j]));
    weights := new real[8, lanes]((k, j) requires 0 <= k < 8 && 0 <= j < lanes
                                    => Weights(fz[j], fy[j], fx[j])[k]);
    ps := LanePoints(mz, my, mx, baseZ, baseY, baseX, ox, lanes);
    forall j | 0 <= j < lanes
      ensures zi[j] == Floor(ps[j].z) && yi[j] == Floor(ps[j].y) && xi[j] == Floor(ps[j].x)
      ensures fz[j] == Frac(ps[j].z) && fy[j] == Frac(ps[j].y) && fx[j] == Frac(ps[j].x)
    {
      assert ps[j] == Point3(zs[j], ys[j], xs[j]);
      TruncOfFloor(zs[j]);
      TruncOfFloor(ys[j]);
      TruncOfFloor(xs[j]);
    }
  }

  /** One batch: voxels ox .. ox + lanes - 1 of row (oz, oy). The lane coordinates are computed
    * as vectors, resolved lane by lane, and written back with one vector store through
    * `store`. */
  method Avx2Batch<T>(input: Volume<T>, load: T -> real, store: real -> T, fill: T,
                      ghost a: AffineMatrix3D, ghost shift: Shift, ghost oz: nat, ghost oy: nat,
                      lanes: nat, mz: real, my: real, mx: real,
                      baseZ: real, baseY: real, baseX: real,
                      output: array<T>, rowStart: nat, ox: nat)
    requires input.Valid() && lanes >= 1
    requires mz == a.m[0][2] && my == a.m[1][2] && mx == a.m[2][2]
    requires baseZ == a.m[0][0] * oz as real + a.m[0][1] * oy as real + shift[0]
    requires baseY == a.m[1][0] * oz as real + a.m[1][1] * oy as real + shift[1]
    requires baseX == a.m[2][0] * oz as real + a.m[2][1] * oy as real + shift[2]
    requires rowStart + ox + lanes <= output.Length
    modifies output
    ensures forall i | 0 <= i < output.Length && rowStart + ox <= i < rowStart + ox + lanes
              :: output[i] == BatchCell(input, load, store, fill, a, shift, Cell(oz, oy, i - rowStart))
    ensures forall i | 0 <= i < output.Length && !(rowStart + ox <= i < rowStart + ox + lanes)
              :: output[i] == old(output[i])
  {
    hide LaneValue, SourcePoint, Weights, Fma;
    var zi, yi, xi, weights, ps := LaneCoordinates(lanes, mz, my, mx, baseZ, baseY, baseX, ox);
    var result := ResolveLanes(input, load, fill, lanes, zi, yi, xi, weights, ps);
    LanePointsAreSourcePoints(a, shift, oz, oy, mz, my, mx, baseZ, baseY, baseX, ox, lanes);
    var vals := result[..];
    BatchStores(input, load, store, fill, a, shift, oz, oy, ps, vals, ox);
    forall i | rowStart + ox <= i < rowStart + ox + lanes {
      output[i] := store(vals[i - rowStart - ox]);
    }
  }

  /** The remainder loop's body at (zSrc, ySrc, xSrc): the strict test, then the blend written
    * out as the scalar kernels write it; a rejected voxel gets the fill element itself. */
  method RemainderVoxel<T>(input: Volume<T>, load: T -> real, store: real -> T, fill: T,
                           zSrc: real, ySrc: real, xSrc: real) returns (value: T)
    requires input.Valid()
    ensures value == match SampleStrict(input, load, Point3(zSrc, ySrc, xSrc))
                     case None => fill
                     case Some(r) => store(r)
  {
    var d: int, h: int, w: int := input.d, input.h, input.w;
    var z0, y0, x0 := Floor(zSrc), Floor(ySrc), Floor(xSrc);
    if x0 >= 0 && x0 < w - 1 && y0 >= 0 && y0 < h - 1 && z0 >= 0 && z0 < d - 1 {
      var fx, fy, fz := xSrc - Floor(xSrc) as real, ySrc - Floor(ySrc) as real,
                        zSrc - Floor(zSrc) as real;
      var corners := Gather(input.data, load, StrictIndices(z0, y0, x0, d, h, w));
      WeightedIsBlend(corners, fz, fy, fx);
      value := store(Blend(corners, fz, fy, fx));
    } else {
      value := fill;
    }
  }

  /** One output row (oz, oy), starting at rowStart in the output: batches of `lanes` voxels
    * while a whole batch fits, then the remainder loop one voxel at a time. */
  method ProcessRow<T>(input: Volume<T>, load: T -> real, store: real -> T, fill: T,
                       ghost a: AffineMatrix3D, ghost shift: Shift, ghost oz: nat, ghost oy: nat,
                       lanes: nat, mz: real, my: real, mx: real,
                       baseZ: real, baseY: real, baseX: real,
                       output: array<T>, rowStart: nat, ow: nat)
    requires input.Valid() && lanes >= 1
    requires mz == a.m[0][2] && my == a.m[1][2] && mx == a.m[2][2]
    requires baseZ == a.m[0][0] * oz as real + a.m[0][1] * oy as real + shift[0]
    requires baseY == a.m[1][0] * oz as real + a.m[1][1] * oy as real + shift[1]
    requires baseX == a.m[2][0] * oz as real + a.m[2][1] * oy as real + shift[2]
    requires rowStart + ow <= output.Length
    modifies output
    ensures forall i | 0 <= i < output.Length && rowStart <= i < rowStart + ow
              :: output[i] == Avx2Cell(input, load, store, fill, a, shift, lanes, ow, Cell(oz, oy, i - rowStart))
    ensures forall i | 0 <= i < output.Length && !(rowStart <= i < rowStart + ow)
              :: output[i] == old(output[i])
  {
    hide BatchCell, SourcePoint, SampleStrict, BatchEnd;
    var ox: nat := 0;
    ghost var k: nat := 0;
    while ox + (lanes - 1) < ow
      invariant ox == k * lanes && ox <= BatchEnd(ow, lanes)
      invariant forall i | 0 <= i < output.Length && rowStart <= i < rowStart + ox
                  :: output[i] == Avx2Cell(input, load, store, fill, a, shift, lanes, ow, Cell(oz, oy, i - rowStart))
      invariant forall i | 0 <= i < output.Length && !(rowStart <= i < rowStart + ox)
                  :: output[i] == old(output[i])
      decreases ow - ox
    {
      BatchFits(k, ow, lanes);
      MulSucc(k, lanes);
      Avx2Batch(input, load, store, fill, a, shift, oz, oy, lanes, mz, my, mx,
                baseZ, baseY, baseX, output, rowStart, ox);
      ox := ox + lanes;
      k := k + 1;
    }
    BatchLoopStops(k, ow, lanes);
    while ox < ow
      invariant BatchEnd(ow, lanes) <= ox <= ow
      invariant forall i | 0 <= i < output.Length && rowStart <= i < rowStart + ox
                  :: output[i] == Avx2Cell(input, load, store, fill, a, shift, lanes, ow, Cell(oz, oy, i - rowStart))
      invariant forall i | 0 <= i < output.Length && !(rowStart <= i < rowStart + ox)
                  :: output[i] == old(output[i])
    {
      var zSrc := mz * ox as real + baseZ;
      var ySrc := my * ox as real + baseY;
      var xSrc := mx * ox as real + baseX;
      HoistedSourcePoint(a, shift, oz, oy, ox, mz, my, mx, baseZ, baseY, baseX);
      var value := RemainderVoxel(input, load, store, fill, zSrc, ySrc, xSrc);
      assert value == StrictCell(input, load, store, fill, a, shift, Cell(oz, oy, ox));
      output[rowStart + ox] := value;
      ox := ox + 1;
    }
  }

  /** One z-slice (the output chunk of plane oz, from sliceStart): per row, the bases
    * m[r][0]*oz + m[r][1]*oy + shift[r] and the row's batches and remainder. */
  method ProcessZSlice<T>(input: Volume<T>, load: T -> real, store: real -> T, fill: T,
                          ghost a: AffineMatrix3D, ghost shift: Shift, m: seq<real>,
                          shiftZ: real, shiftY: real, shiftX: real, lanes: nat,
                          output: array<T>, sliceStart: nat, oz: nat, ghost od: nat, oh: nat, ow: nat)
    requires input.Valid() && lanes >= 1
    requires m == AsFlat(a) && shiftZ == shift[0] && shiftY == shift[1] && shiftX == shift[2]
    requires oz < od && output.Length == od * oh * ow && sliceStart == Flat(oz, 0, 0, oh, ow)
    modifies output
    ensures forall i | 0 <= i < output.Length && Flat(oz, 0, 0, oh, ow) <= i < Flat(oz + 1, 0, 0, oh, ow)
              :: output[i] == Avx2Volume(input, load, store, fill, a, shift, lanes, od, oh, ow)[i]
    ensures forall i | 0 <= i < output.Length && !(Flat(oz, 0, 0, oh, ow) <= i < Flat(oz + 1, 0, 0, oh, ow))
              :: output[i] == old(output[i])
  {
    hide Avx2Volume, Avx2Cell, SourcePoint;
    ghost var spec := Avx2Volume(input, load, store, fill, a, shift, lanes, od, oh, ow);
    var m00, m01, m02 := m[0], m[1], m[2];
    var m10, m11, m12 := m[3], m[4], m[5];
    var m20, m21, m22 := m[6], m[7], m[8];
    for oy := 0 to oh
      invariant forall i | 0 <= i < output.Length && sliceStart <= i < Flat(oz, oy, 0, oh, ow)
                  :: output[i] == spec[i]
      invariant forall i | 0 <= i < output.Length && !(sliceStart <= i < Flat(oz, oy, 0, oh, ow))
                  :: output[i] == old(output[i])
    {
      var baseZ := m00 * oz as real + m01 * oy as real + shiftZ;
      var baseY := m10 * oz as real + m11 * oy as real + shiftY;
      var baseX := m20 * oz as real + m21 * oy as real + shiftX;
      var rowStart := sliceStart + oy * ow;
      if ow > 0 {
        FlatInBounds(oz, oy, ow - 1, od, oh, ow);
      }
      ProcessRow(input, load, store, fill, a, shift, oz, oy, lanes, m02, m12, m22,
                 baseZ, baseY, baseX, output, rowStart, ow);
      forall i | rowStart <= i < rowStart + ow
        ensures spec[i] == Avx2Cell(input, load, store, fill, a, shift, lanes, ow, Cell(oz, oy, i - rowStart))
      {
        Avx2VolumeAt(input, load, store, fill, a, shift, lanes, od, oh, ow, oz, oy, i - rowStart);
      }
      FlatNextRow(oz, oy, oh, ow);
    }
    FlatNextPlane(oz, oh, ow);
  }

  /** `trilinear_3d_*_avx2` with `lanes` lanes: nothing is written when the input is tiny;
    * otherwise every z-slice chunk of oh*ow voxels is processed (`chunks_mut`, which needs a
    * non-zero chunk size). */
  method Trilinear3DAvx2<T>(input: Volume<T>, load: T -> real, store: real -> T, fill: T,
                            a: AffineMatrix3D, shift: Shift, lanes: nat,
                            output: array<T>, od: nat, oh: nat, ow: nat)
    requires input.Valid() && lanes >= 1 && output.Length == od * oh * ow
    requires !Tiny(input) ==> oh >= 1 && ow >= 1
    modifies output
    ensures Tiny(input) ==> output[..] == old(output[..])
    ensures !Tiny(input)
            ==> output[..] == Avx2Volume(input, load, store, fill, a, shift, lanes, od, oh, ow)
  {
    var d, h, w := input.d, input.h, input.w;
    if d < 2 || h < 2 || w < 2 {
      return;
    }
    hide Avx2Volume;
    ghost var spec := Avx2Volume(input, load, store, fill, a, shift, lanes, od, oh, ow);
    var m := AsFlat(a);
    var shiftZ, shiftY, shiftX := shift[0], shift[1], shift[2];
    var chunkSize := oh * ow;
    FlatOrigin(oh, ow);
    for oz := 0 to od
      invariant forall i | 0 <= i < output.Length && i < Flat(oz, 0, 0, oh, ow) :: output[i] == spec[i]
    {
      ProcessZSlice(input, load, store, fill, a, shift, m, shiftZ, shiftY, shiftX, lanes,
                    output, oz * chunkSize, oz, od, oh, ow);
    }
    FlatEnd(od, oh, ow);
    assert output[..] == spec;
  }

  /** `trilinear_3d_f32_avx2`: 8 lanes of f32; the fill is `cval as f32`. */
  method Trilinear3DF32Avx2(input: Volume<real>, a: AffineMatrix3D, shift: Shift, cval: real,
                            output: array<real>, od: nat, oh: nat, ow: nat)
    requires input.Valid() && output.Length == od * oh * ow
    requires !Tiny(input) ==> oh >= 1 && ow >= 1
    modifies output
    ensures Tiny(input) ==> output[..] == old(output[..])
    ensures !Tiny(input) ==> output[..] == Avx2Volume(input, Exact, Exact, cval, a, shift, 8, od, oh, ow)
  {
    Trilinear3DAvx2(input, Exact, Exact, cval, a, shift, 8, output, od, oh, ow);
  }

  /** `trilinear_3d_f64_avx2`: 4 lanes of f64; the fill is `cval`. */
  method Trilinear3DF64Avx2(input: Volume<real>, a: AffineMatrix3D, shift: Shift, cval: real,
                            output: array<real>, od: nat, oh: nat, ow: nat)
    requires input.Valid() && output.Length == od * oh * ow
    requires !Tiny(input) ==> oh >= 1 && ow >= 1
    modifies output
    ensures Tiny(input) ==> output[..] == old(output[..])
    ensures !Tiny(input) ==> output[..] == Avx2Volume(input, Exact, Exact, cval, a, shift, 4, od, oh, ow)
  {
    Trilinear3DAvx2(input, Exact, Exact, cval, a, shift, 4, output, od, oh, ow);
  }

  /** `trilinear_3d_f16_avx2`: 8 lanes of f32 arithmetic on f16 elements; lanes are stored with
    * `_mm256_cvtps_ph` (round to nearest, as `f16::from_f32`), a rejected lane holds
    * `cval_f16.to_f32()`, and the remainder writes `cval_f16 = f16::from_f64(cval)`. */
  method Trilinear3DF16Avx2<H>(input: Volume<H>, half: HalfFloat<H>, a: AffineMatrix3D,
                               shift: Shift, cval: real, output: array<H>, od: nat, oh: nat, ow: nat)
    requires input.Valid() && output.Length == od * oh * ow
    requires !Tiny(input) ==> oh >= 1 && ow >= 1
    modifies output
    ensures Tiny(input) ==> output[..] == old(output[..])
    ensures !Tiny(input)
            ==> output[..] == Avx2Volume(input, half.toF32, half.fromF32, half.fromF64(cval),
                                         a, shift, 8, od, oh, ow)
  {
    Trilinear3DAvx2(input, half.toF32, half.fromF32, half.fromF64(cval), a, shift, 8,
                    output, od, oh, ow);
  }
}
