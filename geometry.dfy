/** Three-dimensional vectors and 3x3 matrices over the reals, and the hat map
    that turns a vector into the skew-symmetric matrix of its cross product. */
module Geometry {

  /** A column 3-vector (a geometry_msgs Vector3, an Eigen 3x1 matrix). */
  datatype Vec3 = Vec3(x: real, y: real, z: real)
  {
    /** Component i, counted from 0 as Eigen's `v(i, 0)` does. */
    function At(i: nat): real
      requires i < 3
    {
      if i == 0 then x else if i == 1 then y else z
    }
  }

  const Zero: Vec3 := Vec3(0.0, 0.0, 0.0)

  /** A 3x3 matrix, stored row by row. */
  datatype Mat3 = Mat3(row0: Vec3, row1: Vec3, row2: Vec3)
  {
    function Row(i: nat): Vec3
      requires i < 3
    {
      if i == 0 then row0 else if i == 1 then row1 else row2
    }

    /** Entry (i, j), as Eigen's `m(i, j)`. */
    function At(i: nat, j: nat): real
      requires i < 3 && j < 3
    {
      Row(i).At(j)
    }
  }

  const ZeroMatrix: Mat3 := Mat3(Zero, Zero, Zero)

  function Dot(a: Vec3, b: Vec3): real
  {
    a.x * b.x + a.y * b.y + a.z * b.z
  }

  /** The cross product a x b. */
  function Cross(a: Vec3, b: Vec3): Vec3
  {
    Vec3(a.y * b.z - a.z * b.y, a.z * b.x - a.x * b.z, a.x * b.y - a.y * b.x)
  }

  /** The matrix-vector product m w. */
  function MatVec(m: Mat3, w: Vec3): Vec3
  {
    Vec3(Dot(m.row0, w), Dot(m.row1, w), Dot(m.row2, w))
  }

  /** m is skew-symmetric: m(i, j) == -m(j, i) for all i, j. */
  ghost predicate IsSkew(m: Mat3)
  {
    forall i: nat, j: nat | i < 3 && j < 3 :: m.At(i, j) == -m.At(j, i)
  }

  /** The hat map: the skew-symmetric matrix whose product with any w is v x w.
      Its entries (1, 0), (0, 2) and (2, 1) hold z, y and x; the diagonal is zero. */
  function Hat(v: Vec3): (h: Mat3)
    ensures IsSkew(h)
    ensures forall i: nat | i < 3 :: h.At(i, i) == 0.0
    ensures h.At(2, 1) == v.x && h.At(0, 2) == v.y && h.At(1, 0) == v.z
    ensures forall w :: MatVec(h, w) == Cross(v, w)
    ensures MatVec(h, v) == Zero
  {
    Mat3(Vec3(0.0, -v.z, v.y),
         Vec3(v.z, 0.0, -v.x),
         Vec3(-v.y, v.x, 0.0))
  }

  /** Every skew-symmetric matrix is the hat of the vector read back from
      its entries (2, 1), (0, 2) and (1, 0): the hat map is onto the
      skew-symmetric matrices, and those three entries invert it. */
  lemma SkewIsHat(m: Mat3)
    requires IsSkew(m)
    ensures m == Hat(Vec3(m.At(2, 1), m.At(0, 2), m.At(1, 0)))
  {
    assert m.At(0, 0) == -m.At(0, 0);
    assert m.At(1, 1) == -m.At(1, 1);
    assert m.At(2, 2) == -m.At(2, 2);
    assert m.At(0, 1) == -m.At(1, 0);
    assert m.At(1, 2) == -m.At(2, 1);
    assert m.At(2, 0) == -m.At(0, 2);
  }

  /** The hat map is one-to-one: equal hat matrices come from equal vectors. */
  lemma HatInjective(a: Vec3, b: Vec3)
    requires Hat(a) == Hat(b)
    ensures a == b
  {
    assert Hat(a).At(2, 1) == a.x && Hat(b).At(2, 1) == b.x;
  }
}
