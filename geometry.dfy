/** The 3×3 affine matrix of the crate, its constructors and flat form, and the source
  * coordinate the matrix assigns to an output voxel. Floating-point values are mathematical
  * reals. */
module Geometry {
  import opened Trilinear

  type Row3 = r: seq<real> | |r| == 3 witness [0.0, 0.0, 0.0]
  const ZeroRow: Row3 := [0.0, 0.0, 0.0]
  type Mat3 = m: seq<Row3> | |m| == 3 witness [ZeroRow, ZeroRow, ZeroRow]

  /** Translation (shift_z, shift_y, shift_x). */
  type Shift = s: seq<real> | |s| == 3 witness [0.0, 0.0, 0.0]

  /** Maps output coordinates to input coordinates: src = m · (oz, oy, ox) + shift.
    * The datatype constructor plays the part of `AffineMatrix3D::new`. */
  datatype AffineMatrix3D = AffineMatrix3D(m: Mat3)

  /** The identity matrix (also the `Default` of the type). */
  function Identity(): (a: AffineMatrix3D)
    ensures forall i, j | 0 <= i < 3 && 0 <= j < 3 :: a.m[i][j] == if i == j then 1.0 else 0.0
  {
    AffineMatrix3D([[1.0, 0.0, 0.0], [0.0, 1.0, 0.0], [0.0, 0.0, 1.0]])
  }

  /** Diagonal scaling by (sz, sy, sx). */
  function Scale(sz: real, sy: real, sx: real): (a: AffineMatrix3D)
    ensures forall i, j | 0 <= i < 3 && 0 <= j < 3 && i != j :: a.m[i][j] == 0.0
    ensures a.m[0][0] == sz && a.m[1][1] == sy && a.m[2][2] == sx
  {
    AffineMatrix3D([[sz, 0.0, 0.0], [0.0, sy, 0.0], [0.0, 0.0, sx]])
  }

  /** Scaling by one in every axis is the identity. */
  lemma UnitScaleIsIdentity()
    ensures Scale(1.0, 1.0, 1.0) == Identity()
  {}

  /** Row-major flattening: entry (i, j) is element 3*i + j. */
  function AsFlat(a: AffineMatrix3D): (r: seq<real>)
    ensures |r| == 9
    ensures forall i, j | 0 <= i < 3 && 0 <= j < 3 :: r[3 * i + j] == a.m[i][j]
  {
    [a.m[0][0], a.m[0][1], a.m[0][2],
     a.m[1][0], a.m[1][1], a.m[1][2],
     a.m[2][0], a.m[2][1], a.m[2][2]]
  }

  /** Rebuilds a matrix from nine row-major entries. */
  function FromFlat(f: seq<real>): AffineMatrix3D
    requires |f| == 9
  {
    AffineMatrix3D([[f[0], f[1], f[2]], [f[3], f[4], f[5]], [f[6], f[7], f[8]]])
  }

  /** Flattening loses nothing: the nine entries rebuild the matrix. */
  lemma AsFlatRoundTrip(a: AffineMatrix3D)
    ensures FromFlat(AsFlat(a)) == a
  {
    var r := FromFlat(AsFlat(a)).m;
    assert r[0] == a.m[0] && r[1] == a.m[1] && r[2] == a.m[2];
  }

  /** The source coordinate of output voxel (oz, oy, ox): row r is
    * m[r][0]*oz + m[r][1]*oy + m[r][2]*ox + shift[r]. */
  function SourcePoint(a: AffineMatrix3D, shift: Shift, oz: int, oy: int, ox: int): Point3
  {
    Point3(a.m[0][0] * oz as real + a.m[0][1] * oy as real + a.m[0][2] * ox as real + shift[0],
           a.m[1][0] * oz as real + a.m[1][1] * oy as real + a.m[1][2] * ox as real + shift[1],
           a.m[2][0] * oz as real + a.m[2][1] * oy as real + a.m[2][2] * ox as real + shift[2])
  }

  /** One row of the hoisted coordinate: m2*ox added to the row base m0*oz + m1*oy + s. */
  lemma HoistedRow(m0: real, m1: real, m2: real, s: real, oz: int, oy: int, ox: int,
                   mx: real, base: real)
    requires mx == m2 && base == m0 * oz as real + m1 * oy as real + s
    ensures m0 * oz as real + m1 * oy as real + m2 * ox as real + s == mx * ox as real + base
  {}

  /** The kernels compute the coordinate as m[r][2]*ox + base[r], with the row base
    * m[r][0]*oz + m[r][1]*oy + shift[r] hoisted out of the x loop and the column m[r][2]
    * read into locals (mz, my, mx); this is the source point. */
  lemma HoistedSourcePoint(a: AffineMatrix3D, shift: Shift, oz: int, oy: int, ox: int,
                           mz: real, my: real, mx: real, baseZ: real, baseY: real, baseX: real)
    requires mz == a.m[0][2] && my == a.m[1][2] && mx == a.m[2][2]
    requires baseZ == a.m[0][0] * oz as real + a.m[0][1] * oy as real + shift[0]
    requires baseY == a.m[1][0] * oz as real + a.m[1][1] * oy as real + shift[1]
    requires baseX == a.m[2][0] * oz as real + a.m[2][1] * oy as real + shift[2]
    ensures SourcePoint(a, shift, oz, oy, ox)
         == Point3(mz * ox as real + baseZ, my * ox as real + baseY, mx * ox as real + baseX)
  {
    HoistedRow(a.m[0][0], a.m[0][1], a.m[0][2], shift[0], oz, oy, ox, mz, baseZ);
    HoistedRow(a.m[1][0], a.m[1][1], a.m[1][2], shift[1], oz, oy, ox, my, baseY);
    HoistedRow(a.m[2][0], a.m[2][1], a.m[2][2], shift[2], oz, oy, ox, mx, baseX);
    assert SourcePoint(a, shift, oz, oy, ox).z == mz * ox as real + baseZ;
    assert SourcePoint(a, shift, oz, oy, ox).y == my * ox as real + baseY;
    assert SourcePoint(a, shift, oz, oy, ox).x == mx * ox as real + baseX;
  }

  /** Under the identity matrix the source coordinate is the output coordinate plus the shift. */
  lemma IdentitySourcePoint(shift: Shift, oz: int, oy: int, ox: int)
    ensures SourcePoint(Identity(), shift, oz, oy, ox)
         == Point3(oz as real + shift[0], oy as real + shift[1], ox as real + shift[2])
  {}

  /** Under a scaling matrix each axis is scaled independently. */
  lemma ScaleSourcePoint(sz: real, sy: real, sx: real, shift: Shift, oz: int, oy: int, ox: int)
    ensures SourcePoint(Scale(sz, sy, sx), shift, oz, oy, ox)
         == Point3(sz * oz as real + shift[0], sy * oy as real + shift[1], sx * ox as real + shift[2])
  {}
}
