/** Row-major flattening of volume indices, shared by every kernel:
  * voxel (z, y, x) of a d×h×w volume lives at z*(h*w) + y*w + x. */
module Layout {

  /** Flat offset of (z, y, x) with row stride w and plane stride h*w. */
  function Flat(z: int, y: int, x: int, h: int, w: int): int
  {
    z * (h * w) + y * w + x
  }

  /** The voxel coordinates of a flat offset. */
  datatype Cell = Cell(z: nat, y: nat, x: nat)

  /** Inverse of Flat on a box of planes h×w. */
  function Unflat(i: nat, h: nat, w: nat): (c: Cell)
    requires h > 0 && w > 0
  {
    Cell((i / w) / h, (i / w) % h, i % w)
  }

  predicate InBox(c: Cell, d: nat, h: nat, w: nat)
  {
    c.z < d && c.y < h && c.x < w
  }

  /** Division with remainder is unique: the Euclidean quotient and remainder are the only pair. */
  lemma DivModUnique(a: int, b: int, q: int, r: int)
    requires b > 0 && 0 <= r < b && a == q * b + r
    ensures a / b == q && a % b == r
  {
    var q', r' := a / b, a % b;
    assert a == q' * b + r';
    assert (q - q') * b == r' - r;
    if q - q' >= 1 {
      MulAtLeast(q - q', b);
      assert false;
    } else if q' - q >= 1 {
      MulAtLeast(q' - q, b);
      assert false;
    }
  }

  lemma MulAtLeast(n: int, b: int)
    requires n >= 1 && b > 0
    ensures n * b >= b
  {
    assert n * b == (n - 1) * b + b;
    MulNonNeg(n - 1, b);
  }

  lemma MulNonNeg(a: int, b: int)
    requires a >= 0 && b >= 0
    ensures a * b >= 0
  {}

  /** a <= b implies a*c <= b*c for non-negative c. */
  lemma MulMono(a: int, b: int, c: int)
    requires a <= b && c >= 0
    ensures a * c <= b * c
  {
    MulNonNeg(b - a, c);
    assert b * c - a * c == (b - a) * c;
  }

  /** A row offset y*w + x stays inside one plane. */
  lemma RowInPlane(y: int, x: int, h: int, w: int)
    requires 0 <= y < h && 0 <= x < w
    ensures 0 <= y * w + x < h * w
  {
    MulNonNeg(y, w);
    MulMono(y, h - 1, w);
    assert (h - 1) * w == h * w - w;
  }

  /** Every voxel of a d×h×w box has its flat offset inside [0, d*h*w). */
  lemma FlatInBounds(z: int, y: int, x: int, d: int, h: int, w: int)
    requires 0 <= z < d && 0 <= y < h && 0 <= x < w
    ensures 0 <= Flat(z, y, x, h, w) < d * h * w
  {
    RowInPlane(y, x, h, w);
    MulNonNeg(z, h * w);
    MulMono(z, d - 1, h * w);
    assert (d - 1) * (h * w) == d * (h * w) - h * w;
    assert d * (h * w) == d * h * w;
  }

  /** Unflat undoes Flat on the box. */
  lemma UnflatFlat(z: nat, y: nat, x: nat, h: nat, w: nat)
    requires h > 0 && w > 0 && y < h && x < w
    ensures Flat(z, y, x, h, w) >= 0
    ensures Unflat(Flat(z, y, x, h, w), h, w) == Cell(z, y, x)
  {
    var i := Flat(z, y, x, h, w);
    MulNonNeg(z, h * w);
    MulNonNeg(y, w);
    assert i == (z * h + y) * w + x by {
      assert z * (h * w) == (z * h) * w;
      assert (z * h + y) * w == (z * h) * w + y * w;
    }
    DivModUnique(i, w, z * h + y, x);
    DivModUnique(z * h + y, h, z, y);
  }

  /** Flat undoes Unflat, and Unflat lands in the box: together with UnflatFlat this makes
    * Flat a bijection between the d×h×w box and [0, d*h*w). */
  lemma FlatUnflat(i: nat, d: nat, h: nat, w: nat)
    requires h > 0 && w > 0 && i < d * h * w
    ensures InBox(Unflat(i, h, w), d, h, w)
    ensures Flat(Unflat(i, h, w).z, Unflat(i, h, w).y, Unflat(i, h, w).x, h, w) == i
  {
    var a := i / w;
    var c := Unflat(i, h, w);
    assert i == a * w + i % w;
    assert a == (a / h) * h + a % h;
    assert c.z * (h * w) + c.y * w == a * w by {
      calc {
        c.z * (h * w) + c.y * w;
        (a / h) * h * w + (a % h) * w;
        ((a / h) * h + a % h) * w;
      }
    }
    if a / h >= d {
      MulMono(d, a / h, h);
      assert a >= d * h;
      MulMono(d * h, a, w);
      assert false;
    }
  }

  /** The kernels write the offset as z*h*w + y*w + x, multiplying left to right. */
  lemma FlatLeftToRight(z: int, y: int, x: int, h: int, w: int)
    ensures z * h * w + y * w + x == Flat(z, y, x, h, w)
  {
    assert z * h * w == z * (h * w);
  }

  /** The first voxel is at offset 0. */
  lemma FlatOrigin(h: int, w: int)
    ensures Flat(0, 0, 0, h, w) == 0
  {}

  /** The next voxel of a row is at the next offset. */
  lemma FlatNextVoxel(z: int, y: int, x: int, h: int, w: int)
    ensures Flat(z, y, x + 1, h, w) == Flat(z, y, x, h, w) + 1
  {}

  /** Stepping past the last voxel of a row lands on the first voxel of the next row. */
  lemma FlatNextRow(z: int, y: int, h: int, w: int)
    ensures Flat(z, y, w, h, w) == Flat(z, y + 1, 0, h, w)
  {}

  /** Stepping past the last row of a plane lands on the first voxel of the next plane. */
  lemma FlatNextPlane(z: int, h: int, w: int)
    ensures Flat(z, h, 0, h, w) == Flat(z + 1, 0, 0, h, w)
  {
    assert (z + 1) * (h * w) == z * (h * w) + h * w;
  }

  /** Just past the last plane is the end of the volume. */
  lemma FlatEnd(d: int, h: int, w: int)
    ensures Flat(d, 0, 0, h, w) == d * h * w
  {
    assert d * (h * w) == d * h * w;
  }
}
