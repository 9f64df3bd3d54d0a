/**
  * src/math/Matrix4.ts: 4×4 matrices stored as 16 numbers in column-major
  * order, as WebGL expects them.
  *
  * `Mat4` is the value of the 16 entries; the class `Matrix4` owns the
  * fixed-size array the source overwrites in place, and each of its methods is
  * proved to leave the array holding the matrix that a function of `Mat4`
  * prescribes. As with quaternions, every product of entries goes through a
  * function on plain numbers (`Dot4`, `EulerEntries`, `ComposeEntries`,
  * `PerspectiveEntries`) and the polynomial facts are proved on those.
  */
module Matrices {

  import opened Numerics
  import opened Vectors
  import opened Quaternions

  /** The 16 entries; `ek` is array index `k`, that is row `k % 4` of column `k / 4`. */
  datatype Mat4 = Mat4(e0: real, e1: real, e2: real, e3: real, e4: real, e5: real, e6: real, e7: real, e8: real, e9: real, e10: real, e11: real, e12: real, e13: real, e14: real, e15: real)

  /** The entries in array order. */
  function Elements(m: Mat4): (s: seq<real>)
    ensures |s| == 16
  {
    [m.e0, m.e1, m.e2, m.e3, m.e4, m.e5, m.e6, m.e7, m.e8, m.e9, m.e10, m.e11, m.e12, m.e13, m.e14, m.e15]
  }

  /** The dot product of `(x0, x1, x2, x3)` and `(y0, y1, y2, y3)`. */
  function Dot4(x0: real, x1: real, x2: real, x3: real, y0: real, y1: real, y2: real, y3: real): real {
    x0 * y0 + x1 * y1 + x2 * y2 + x3 * y3
  }

  const IDENTITY_MAT: Mat4 := Mat4(
    1.0, 0.0, 0.0, 0.0,
    0.0, 1.0, 0.0, 0.0,
    0.0, 0.0, 1.0, 0.0,
    0.0, 0.0, 0.0, 1.0)

  /** The matrix product `a × b`: entry (r, c) is row r of `a` times column c of `b`. */
  function Product(a: Mat4, b: Mat4): Mat4 {
    Mat4(
      Dot4(a.e0, a.e4, a.e8, a.e12, b.e0, b.e1, b.e2, b.e3), Dot4(a.e1, a.e5, a.e9, a.e13, b.e0, b.e1, b.e2, b.e3), Dot4(a.e2, a.e6, a.e10, a.e14, b.e0, b.e1, b.e2, b.e3), Dot4(a.e3, a.e7, a.e11, a.e15, b.e0, b.e1, b.e2, b.e3),
      Dot4(a.e0, a.e4, a.e8, a.e12, b.e4, b.e5, b.e6, b.e7), Dot4(a.e1, a.e5, a.e9, a.e13, b.e4, b.e5, b.e6, b.e7), Dot4(a.e2, a.e6, a.e10, a.e14, b.e4, b.e5, b.e6, b.e7), Dot4(a.e3, a.e7, a.e11, a.e15, b.e4, b.e5, b.e6, b.e7),
      Dot4(a.e0, a.e4, a.e8, a.e12, b.e8, b.e9, b.e10, b.e11), Dot4(a.e1, a.e5, a.e9, a.e13, b.e8, b.e9, b.e10, b.e11), Dot4(a.e2, a.e6, a.e10, a.e14, b.e8, b.e9, b.e10, b.e11), Dot4(a.e3, a.e7, a.e11, a.e15, b.e8, b.e9, b.e10, b.e11),
      Dot4(a.e0, a.e4, a.e8, a.e12, b.e12, b.e13, b.e14, b.e15), Dot4(a.e1, a.e5, a.e9, a.e13, b.e12, b.e13, b.e14, b.e15), Dot4(a.e2, a.e6, a.e10, a.e14, b.e12, b.e13, b.e14, b.e15), Dot4(a.e3, a.e7, a.e11, a.e15, b.e12, b.e13, b.e14, b.e15))
  }

  /**
    * The column-major product rule in terms of array indices:
    * `product[c*4 + r] = Σk a[k*4 + r] · b[c*4 + k]`.
    */
  lemma ProductEntry(a: Mat4, b: Mat4, r: nat, c: nat)
    requires r < 4 && c < 4
    ensures Elements(Product(a, b))[4 * c + r]
         == Dot4(Elements(a)[r], Elements(a)[4 + r], Elements(a)[8 + r], Elements(a)[12 + r],
                 Elements(b)[4 * c], Elements(b)[4 * c + 1], Elements(b)[4 * c + 2], Elements(b)[4 * c + 3])
  {
  }

  /** The identity matrix is a left and a right unit of the product. */
  lemma ProductIdentity(m: Mat4)
    ensures Product(IDENTITY_MAT, m) == m
    ensures Product(m, IDENTITY_MAT) == m
  {
  }

  /** The rotation about X with cosine `a` and sine `b`. */
  function RotX(a: real, b: real): Mat4 {
    Mat4(
      1.0, 0.0, 0.0, 0.0,
      0.0, a, b, 0.0,
      0.0, -b, a, 0.0,
      0.0, 0.0, 0.0, 1.0)
  }

  /** The rotation about Y with cosine `c` and sine `d`. */
  function RotY(c: real, d: real): Mat4 {
    Mat4(
      c, 0.0, -d, 0.0,
      0.0, 1.0, 0.0, 0.0,
      d, 0.0, c, 0.0,
      0.0, 0.0, 0.0, 1.0)
  }

  /** The rotation about Z with cosine `e` and sine `f`. */
  function RotZ(e: real, f: real): Mat4 {
    Mat4(
      e, f, 0.0, 0.0,
      -f, e, 0.0, 0.0,
      0.0, 0.0, 1.0, 0.0,
      0.0, 0.0, 0.0, 1.0)
  }

  /**
    * The entries `makeRotationFromEulerXYZ` writes, from `a, b` = cos, sin of
    * x, `c, d` of y and `e, f` of z: a rotation block, zeros in the bottom row
    * and the translation column, and 1 in the corner.
    */
  function EulerEntries(a: real, b: real, c: real, d: real, e: real, f: real): Mat4 {
    var ae, af, be, bf := a * e, a * f, b * e, b * f;
    Mat4(
      c * e, af + be * d, bf - ae * d, 0.0,
      -c * f, ae - bf * d, be + af * d, 0.0,
      d, -b * c, a * c, 0.0,
      0.0, 0.0, 0.0, 1.0)
  }

  function EulerXYZMat(m: MathLib, x: real, y: real, z: real): Mat4 {
    EulerEntries(m.cos(x), m.sin(x), m.cos(y), m.sin(y), m.cos(z), m.sin(z))
  }

  /**
    * The Euler-XYZ matrix is `RotX(x) × RotY(y) × RotZ(z)`: applied to a column
    * vector it rotates about Z first, then Y, then X.
    */
  lemma EulerXYZIsAxisProduct(m: MathLib, x: real, y: real, z: real)
    ensures EulerXYZMat(m, x, y, z)
         == Product(Product(RotX(m.cos(x), m.sin(x)), RotY(m.cos(y), m.sin(y))), RotZ(m.cos(z), m.sin(z)))
  {
    var a, b, c, d, e, f := m.cos(x), m.sin(x), m.cos(y), m.sin(y), m.cos(z), m.sin(z);
    RotXY(a, b, c, d);
    RotXYZ(a, b, c, d, e, f);
  }

  lemma RotXY(a: real, b: real, c: real, d: real)
    ensures Product(RotX(a, b), RotY(c, d))
         == Mat4(
           c, b * d, -a * d, 0.0,
           0.0, a, b, 0.0,
           d, -b * c, a * c, 0.0,
           0.0, 0.0, 0.0, 1.0)
  {
    RotXYDots(a, b, c, d);
  }

  lemma RotXYDots(a: real, b: real, c: real, d: real)
    ensures Mat4(
           Dot4(1.0, 0.0, 0.0, 0.0, c, 0.0, -d, 0.0), Dot4(0.0, a, -b, 0.0, c, 0.0, -d, 0.0), Dot4(0.0, b, a, 0.0, c, 0.0, -d, 0.0), Dot4(0.0, 0.0, 0.0, 1.0, c, 0.0, -d, 0.0),
           Dot4(1.0, 0.0, 0.0, 0.0, 0.0, 1.0, 0.0, 0.0), Dot4(0.0, a, -b, 0.0, 0.0, 1.0, 0.0, 0.0), Dot4(0.0, b, a, 0.0, 0.0, 1.0, 0.0, 0.0), Dot4(0.0, 0.0, 0.0, 1.0, 0.0, 1.0, 0.0, 0.0),
           Dot4(1.0, 0.0, 0.0, 0.0, d, 0.0, c, 0.0), Dot4(0.0, a, -b, 0.0, d, 0.0, c, 0.0), Dot4(0.0, b, a, 0.0, d, 0.0, c, 0.0), Dot4(0.0, 0.0, 0.0, 1.0, d, 0.0, c, 0.0),
           Dot4(1.0, 0.0, 0.0, 0.0, 0.0, 0.0, 0.0, 1.0), Dot4(0.0, a, -b, 0.0, 0.0, 0.0, 0.0, 1.0), Dot4(0.0, b, a, 0.0, 0.0, 0.0, 0.0, 1.0), Dot4(0.0, 0.0, 0.0, 1.0, 0.0, 0.0, 0.0, 1.0))
         == Mat4(
           c, b * d, -a * d, 0.0,
           0.0, a, b, 0.0,
           d, -b * c, a * c, 0.0,
           0.0, 0.0, 0.0, 1.0)
  {
  }

  lemma RotXYZ(a: real, b: real, c: real, d: real, e: real, f: real)
    ensures Product(Mat4(
             c, b * d, -a * d, 0.0,
             0.0, a, b, 0.0,
             d, -b * c, a * c, 0.0,
             0.0, 0.0, 0.0, 1.0), RotZ(e, f))
         == EulerEntries(a, b, c, d, e, f)
  {
    RotXYZDots(a, b, c, d, e, f);
  }

  lemma RotXYZDots(a: real, b: real, c: real, d: real, e: real, f: real)
    ensures Mat4(
           Dot4(c, 0.0, d, 0.0, e, f, 0.0, 0.0), Dot4((b * d), a, (-b * c), 0.0, e, f, 0.0, 0.0), Dot4((-a * d), b, (a * c), 0.0, e, f, 0.0, 0.0), Dot4(0.0, 0.0, 0.0, 1.0, e, f, 0.0, 0.0),
           Dot4(c, 0.0, d, 0.0, -f, e, 0.0, 0.0), Dot4((b * d), a, (-b * c), 0.0, -f, e, 0.0, 0.0), Dot4((-a * d), b, (a * c), 0.0, -f, e, 0.0, 0.0), Dot4(0.0, 0.0, 0.0, 1.0, -f, e, 0.0, 0.0),
           Dot4(c, 0.0, d, 0.0, 0.0, 0.0, 1.0, 0.0), Dot4((b * d), a, (-b * c), 0.0, 0.0, 0.0, 1.0, 0.0), Dot4((-a * d), b, (a * c), 0.0, 0.0, 0.0, 1.0, 0.0), Dot4(0.0, 0.0, 0.0, 1.0, 0.0, 0.0, 1.0, 0.0),
           Dot4(c, 0.0, d, 0.0, 0.0, 0.0, 0.0, 1.0), Dot4((b * d), a, (-b * c), 0.0, 0.0, 0.0, 0.0, 1.0), Dot4((-a * d), b, (a * c), 0.0, 0.0, 0.0, 0.0, 1.0), Dot4(0.0, 0.0, 0.0, 1.0, 0.0, 0.0, 0.0, 1.0))
         == EulerEntries(a, b, c, d, e, f)
  {
  }

  /** Zero angles give the identity. */
  lemma EulerXYZZero(m: MathLib)
    requires Lawful(m)
    ensures EulerXYZMat(m, 0.0, 0.0, 0.0) == IDENTITY_MAT
  {
  }

  /**
    * The rotation matrix of the quaternion `(x, y, z, w)` as `compose` computes
    * it from the doubled components, before any scaling; its translation is
    * zero and its bottom row is `(0, 0, 0, 1)`.
    */
  function QuatRotationEntries(x: real, y: real, z: real, w: real): Mat4 {
    var x2, y2, z2 := x + x, y + y, z + z;
    var xx, xy, xz := x * x2, x * y2, x * z2;
    var yy, yz, zz := y * y2, y * z2, z * z2;
    var wx, wy, wz := w * x2, w * y2, w * z2;
    Mat4(
      1.0 - (yy + zz), xy + wz, xz - wy, 0.0,
      xy - wz, 1.0 - (xx + zz), yz + wx, 0.0,
      xz + wy, yz - wx, 1.0 - (xx + yy), 0.0,
      0.0, 0.0, 0.0, 1.0)
  }

  /**
    * The matrix `compose` assembles from a rotation block: column k of the
    * block multiplied by the k-th scale factor, the translation in the last
    * column, and `(0, 0, 0, 1)` as the bottom row.
    */
  function Placed(b: Mat4, px: real, py: real, pz: real, sx: real, sy: real, sz: real): (r: Mat4)
    ensures r.e3 == 0.0 && r.e7 == 0.0 && r.e11 == 0.0 && r.e15 == 1.0
    ensures r.e12 == px && r.e13 == py && r.e14 == pz
  {
    Mat4(
      b.e0 * sx, b.e1 * sx, b.e2 * sx, 0.0,
      b.e4 * sy, b.e5 * sy, b.e6 * sy, 0.0,
      b.e8 * sz, b.e9 * sz, b.e10 * sz, 0.0,
      px, py, pz, 1.0)
  }

  /** The entries `compose` writes for translation `position`, rotation `q` and `scale`. */
  function ComposeMat(position: Vector3, q: Quat, scale: Vector3): Mat4 {
    Placed(QuatRotationEntries(q.x, q.y, q.z, q.w), position.x, position.y, position.z, scale.x, scale.y, scale.z)
  }

  /** The pure rotation `makeRotationFromQuaternion` builds: no translation, unit scale. */
  function RotationOfQuat(q: Quat): Mat4 {
    ComposeMat(POSITION_ZERO, q, SCALE_ONE)
  }

  /** Without translation and scaling, `compose` gives the quaternion's rotation matrix unchanged. */
  lemma RotationOfQuatIsBlock(q: Quat)
    ensures RotationOfQuat(q) == QuatRotationEntries(q.x, q.y, q.z, q.w)
  {
    PlacedUnit(QuatRotationEntries(q.x, q.y, q.z, q.w));
  }

  lemma PlacedUnit(b: Mat4)
    requires b.e3 == 0.0 && b.e7 == 0.0 && b.e11 == 0.0 && b.e15 == 1.0
    requires b.e12 == 0.0 && b.e13 == 0.0 && b.e14 == 0.0
    ensures Placed(b, 0.0, 0.0, 0.0, 1.0, 1.0, 1.0) == b
  {
  }

  /**
    * Scaling multiplies column k of the rotation block by the k-th scale
    * factor and changes nothing else; `ComposeMat` applies this to the
    * quaternion's block.
    */
  lemma ComposeScalesColumns(b: Mat4, px: real, py: real, pz: real, sx: real, sy: real, sz: real)
    ensures var r, u := Placed(b, px, py, pz, sx, sy, sz), Placed(b, px, py, pz, 1.0, 1.0, 1.0);
      && r.e0 == u.e0 * sx && r.e1 == u.e1 * sx && r.e2 == u.e2 * sx
      && r.e4 == u.e4 * sy && r.e5 == u.e5 * sy && r.e6 == u.e6 * sy
      && r.e8 == u.e8 * sz && r.e9 == u.e9 * sz && r.e10 == u.e10 * sz
      && r.e3 == u.e3 && r.e7 == u.e7 && r.e11 == u.e11
      && r.e12 == u.e12 && r.e13 == u.e13 && r.e14 == u.e14 && r.e15 == u.e15
  {
  }

  /** The identity quaternion at the origin with unit scale composes to the identity matrix. */
  lemma ComposeIdentity()
    ensures ComposeMat(POSITION_ZERO, IDENTITY, SCALE_ONE) == IDENTITY_MAT
  {
  }

  /**
    * The entries `perspective` writes, given `f = 1 / tan(fovy / 2)`; every
    * entry not listed is 0.
    */
  function PerspectiveEntries(f: real, aspect: real, near: real, far: real): (r: Mat4)
    requires aspect != 0.0 && near != far
    ensures r.e11 == -1.0 && r.e15 == 0.0 && r.e5 == f
    ensures r.e1 == 0.0 && r.e2 == 0.0 && r.e3 == 0.0 && r.e4 == 0.0 && r.e6 == 0.0 && r.e7 == 0.0
    ensures r.e8 == 0.0 && r.e9 == 0.0 && r.e12 == 0.0 && r.e13 == 0.0
  {
    var nf := 1.0 / (near - far);
    Mat4(
      f / aspect, 0.0, 0.0, 0.0,
      0.0, f, 0.0, 0.0,
      0.0, 0.0, (far + near) * nf, -1.0,
      0.0, 0.0, (2.0 * far * near) * nf, 0.0)
  }

  /**
    * The projection for a vertical field of view `fovy`, which `Math.tan`
    * receives as radians.
    */
  function PerspectiveMat(m: MathLib, fovy: real, aspect: real, near: real, far: real): Mat4
    requires m.tan(fovy * 0.5) != 0.0 && aspect != 0.0 && near != far
  {
    PerspectiveEntries(1.0 / m.tan(fovy * 0.5), aspect, near, far)
  }

  /**
    * What the projection does: `tan(fovy / 2)` times entry 5 is 1, entry 0 is
    * entry 5 divided by the aspect ratio, and the view-space points at depth
    * `-near` and `-far` land, after the division by `w = -z`, on the clip depths
    * -1 and +1.
    */
  lemma PerspectiveProjects(m: MathLib, fovy: real, aspect: real, near: real, far: real)
    requires m.tan(fovy * 0.5) != 0.0 && aspect != 0.0 && near != far
    ensures var r := PerspectiveMat(m, fovy, aspect, near, far);
      && r.e5 * m.tan(fovy * 0.5) == 1.0
      && r.e0 * aspect == r.e5
      && r.e10 * -near + r.e14 == -near && r.e11 * -near == near
      && r.e10 * -far + r.e14 == far && r.e11 * -far == far
  {
    var t := m.tan(fovy * 0.5);
    var f := 1.0 / t;
    var nf := 1.0 / (near - far);
    var r := PerspectiveMat(m, fovy, aspect, near, far);
    assert r.e0 == f / aspect && r.e10 == (far + near) * nf && r.e14 == (2.0 * far * near) * nf;
    DepthPlanes(near, far, nf);
    assert (f / aspect) * aspect == f;
  }

  /** The depth entries map `-near` to `-near` and `-far` to `far`, for `nf = 1 / (near - far)`. */
  lemma DepthPlanes(near: real, far: real, nf: real)
    requires near != far && nf == 1.0 / (near - far)
    ensures (far + near) * nf * -near + (2.0 * far * near) * nf == -near
    ensures (far + near) * nf * -far + (2.0 * far * near) * nf == far
  {
    assert nf * (near - far) == 1.0;
    assert (far + near) * nf * -near + (2.0 * far * near) * nf == -near * (nf * (near - far));
    assert (far + near) * nf * -far + (2.0 * far * near) * nf == far * (nf * (near - far));
  }

  function Dot3(a0: real, a1: real, a2: real, b0: real, b1: real, b2: real): real {
    a0 * b0 + a1 * b1 + a2 * b2
  }

  /** The three columns of the upper-left 3×3 block are unit vectors and pairwise orthogonal. */
  predicate Orthonormal(b: Mat4) {
    && Dot3(b.e0, b.e1, b.e2, b.e0, b.e1, b.e2) == 1.0
    && Dot3(b.e4, b.e5, b.e6, b.e4, b.e5, b.e6) == 1.0
    && Dot3(b.e8, b.e9, b.e10, b.e8, b.e9, b.e10) == 1.0
    && Dot3(b.e0, b.e1, b.e2, b.e4, b.e5, b.e6) == 0.0
    && Dot3(b.e0, b.e1, b.e2, b.e8, b.e9, b.e10) == 0.0
    && Dot3(b.e4, b.e5, b.e6, b.e8, b.e9, b.e10) == 0.0
  }

  /**
    * A unit quaternion yields a rotation: the block `makeRotationFromQuaternion`
    * writes has orthonormal columns. (Each column product differs from the
    * identity's by a multiple of `|q|² - 1`, which the Gram lemmas spell out.)
    */
  lemma RotationOfUnitQuatOrthonormal(q: Quat)
    requires Norm2(q) == 1.0
    ensures Orthonormal(RotationOfQuat(q))
  {
    RotationOfQuatIsBlock(q);
    BlockOrthonormal(q.x, q.y, q.z, q.w);
  }

  lemma BlockOrthonormal(x: real, y: real, z: real, w: real)
    requires SumSquares(x, y, z, w) == 1.0
    ensures Orthonormal(QuatRotationEntries(x, y, z, w))
  {
    Column00(x, y, z, w);
    Column11(x, y, z, w);
    Column22(x, y, z, w);
    Column01(x, y, z, w);
    Column02(x, y, z, w);
    Column12(x, y, z, w);
  }

  lemma Vanishes(c: real, k: real)
    requires k == 0.0
    ensures c * k == 0.0
  {
  }

  lemma Column00(x: real, y: real, z: real, w: real)
    requires SumSquares(x, y, z, w) == 1.0
    ensures var b := QuatRotationEntries(x, y, z, w); Dot3(b.e0, b.e1, b.e2, b.e0, b.e1, b.e2) == 1.0
  {
    Gram00(x, y, z, w);
    Vanishes(4.0 * (y * y + z * z), SumSquares(x, y, z, w) - 1.0);
  }

  lemma Gram00(x: real, y: real, z: real, w: real)
    ensures Dot3(1.0 - (y * (y + y) + z * (z + z)),
                 x * (y + y) + w * (z + z),
                 x * (z + z) - w * (y + y),
                 1.0 - (y * (y + y) + z * (z + z)),
                 x * (y + y) + w * (z + z),
                 x * (z + z) - w * (y + y))
         == 1.0 + 4.0 * (y * y + z * z) * (SumSquares(x, y, z, w) - 1.0)
  {
  }

  lemma Column11(x: real, y: real, z: real, w: real)
    requires SumSquares(x, y, z, w) == 1.0
    ensures var b := QuatRotationEntries(x, y, z, w); Dot3(b.e4, b.e5, b.e6, b.e4, b.e5, b.e6) == 1.0
  {
    Gram11(x, y, z, w);
    Vanishes(4.0 * (x * x + z * z), SumSquares(x, y, z, w) - 1.0);
  }

  lemma Gram11(x: real, y: real, z: real, w: real)
    ensures Dot3(x * (y + y) - w * (z + z),
                 1.0 - (x * (x + x) + z * (z + z)),
                 y * (z + z) + w * (x + x),
                 x * (y + y) - w * (z + z),
                 1.0 - (x * (x + x) + z * (z + z)),
                 y * (z + z) + w * (x + x))
         == 1.0 + 4.0 * (x * x + z * z) * (SumSquares(x, y, z, w) - 1.0)
  {
  }

  lemma Column22(x: real, y: real, z: real, w: real)
    requires SumSquares(x, y, z, w) == 1.0
    ensures var b := QuatRotationEntries(x, y, z, w); Dot3(b.e8, b.e9, b.e10, b.e8, b.e9, b.e10) == 1.0
  {
    Gram22(x, y, z, w);
    Vanishes(4.0 * (x * x + y * y), SumSquares(x, y, z, w) - 1.0);
  }

  lemma Gram22(x: real, y: real, z: real, w: real)
    ensures Dot3(x * (z + z) + w * (y + y),
                 y * (z + z) - w * (x + x),
                 1.0 - (x * (x + x) + y * (y + y)),
                 x * (z + z) + w * (y + y),
                 y * (z + z) - w * (x + x),
                 1.0 - (x * (x + x) + y * (y + y)))
         == 1.0 + 4.0 * (x * x + y * y) * (SumSquares(x, y, z, w) - 1.0)
  {
  }

  lemma Column01(x: real, y: real, z: real, w: real)
    requires SumSquares(x, y, z, w) == 1.0
    ensures var b := QuatRotationEntries(x, y, z, w); Dot3(b.e0, b.e1, b.e2, b.e4, b.e5, b.e6) == 0.0
  {
    Gram01(x, y, z, w);
    Vanishes(-4.0 * x * y, SumSquares(x, y, z, w) - 1.0);
  }

  lemma Gram01(x: real, y: real, z: real, w: real)
    ensures Dot3(1.0 - (y * (y + y) + z * (z + z)),
                 x * (y + y) + w * (z + z),
                 x * (z + z) - w * (y + y),
                 x * (y + y) - w * (z + z),
                 1.0 - (x * (x + x) + z * (z + z)),
                 y * (z + z) + w * (x + x))
         == -4.0 * x * y * (SumSquares(x, y, z, w) - 1.0)
  {
  }

  lemma Column02(x: real, y: real, z: real, w: real)
    requires SumSquares(x, y, z, w) == 1.0
    ensures var b := QuatRotationEntries(x, y, z, w); Dot3(b.e0, b.e1, b.e2, b.e8, b.e9, b.e10) == 0.0
  {
    Gram02(x, y, z, w);
    Vanishes(-4.0 * x * z, SumSquares(x, y, z, w) - 1.0);
  }

  lemma Gram02(x: real, y: real, z: real, w: real)
    ensures Dot3(1.0 - (y * (y + y) + z * (z + z)),
                 x * (y + y) + w * (z + z),
                 x * (z + z) - w * (y + y),
                 x * (z + z) + w * (y + y),
                 y * (z + z) - w * (x + x),
                 1.0 - (x * (x + x) + y * (y + y)))
         == -4.0 * x * z * (SumSquares(x, y, z, w) - 1.0)
  {
  }

  lemma Column12(x: real, y: real, z: real, w: real)
    requires SumSquares(x, y, z, w) == 1.0
    ensures var b := QuatRotationEntries(x, y, z, w); Dot3(b.e4, b.e5, b.e6, b.e8, b.e9, b.e10) == 0.0
  {
    Gram12(x, y, z, w);
    Vanishes(-4.0 * y * z, SumSquares(x, y, z, w) - 1.0);
  }

  lemma Gram12(x: real, y: real, z: real, w: real)
    ensures Dot3(x * (y + y) - w * (z + z),
                 1.0 - (x * (x + x) + z * (z + z)),
                 y * (z + z) + w * (x + x),
                 x * (z + z) + w * (y + y),
                 y * (z + z) - w * (x + x),
                 1.0 - (x * (x + x) + y * (y + y)))
         == -4.0 * y * z * (SumSquares(x, y, z, w) - 1.0)
  {
  }

  /**
    * A 4×4 matrix over a 16-entry array that every method overwrites in place
    * and then returns `this`, so calls chain.
    */
  class Matrix4 {

    const arr: array<real>

    ghost predicate Valid() {
      arr.Length == 16
    }

    /** The matrix the array currently holds. */
    function Value(): (m: Mat4)
      requires Valid()
      reads arr
    {
      Mat4(arr[0], arr[1], arr[2], arr[3], arr[4], arr[5], arr[6], arr[7],
           arr[8], arr[9], arr[10], arr[11], arr[12], arr[13], arr[14], arr[15])
    }

    /** A fresh 16-entry array, then `identity()`. */
    constructor ()
      ensures Valid() && fresh(arr)
      ensures Value() == IDENTITY_MAT
    {
      arr := new real[16];
      new;
      var _ := Identity();
    }

    /** The backing array itself, not a copy. */
    function Extract(): (a: array<real>)
      ensures a == arr
    {
      arr
    }

    /** Writes all 16 entries of `m`. */
    method Store(m: Mat4)
      requires Valid()
      modifies arr
      ensures Valid() && Value() == m
    {
      forall i | 0 <= i < 16 {
        arr[i] := Elements(m)[i];
      }
    }

    /** Overwrites all 16 entries with the unit matrix. */
    method Identity() returns (self: Matrix4)
      requires Valid()
      modifies arr
      ensures self == this && Valid()
      ensures Value() == IDENTITY_MAT
    {
      Store(IDENTITY_MAT);
      self := this;
    }

    /**
      * `this := a × b`. All 32 inputs are read into locals before the first
      * write, so `a` or `b` (or both) may be `this` itself.
      */
    method MultiplyMatrices(a: Matrix4, b: Matrix4) returns (self: Matrix4)
      requires Valid() && a.Valid() && b.Valid()
      modifies arr
      ensures self == this && Valid()
      ensures Value() == Product(old(a.Value()), old(b.Value()))
    {
      var ae, be := a.arr, b.arr;
      var a11, a12, a13, a14 := ae[0], ae[4], ae[8], ae[12];
      var a21, a22, a23, a24 := ae[1], ae[5], ae[9], ae[13];
      var a31, a32, a33, a34 := ae[2], ae[6], ae[10], ae[14];
      var a41, a42, a43, a44 := ae[3], ae[7], ae[11], ae[15];
      var b11, b12, b13, b14 := be[0], be[4], be[8], be[12];
      var b21, b22, b23, b24 := be[1], be[5], be[9], be[13];
      var b31, b32, b33, b34 := be[2], be[6], be[10], be[14];
      var b41, b42, b43, b44 := be[3], be[7], be[11], be[15];
      var r := Product(
        Mat4(a11, a21, a31, a41, a12, a22, a32, a42, a13, a23, a33, a43, a14, a24, a34, a44),
        Mat4(b11, b21, b31, b41, b12, b22, b32, b42, b13, b23, b33, b43, b14, b24, b34, b44));
      Store(r);
      self := this;
    }

    /** Overwrites the matrix with the rotation `RotX(x) × RotY(y) × RotZ(z)`. */
    method MakeRotationFromEulerXYZ(m: MathLib, x: real, y: real, z: real) returns (self: Matrix4)
      requires Valid()
      modifies arr
      ensures self == this && Valid()
      ensures Value() == EulerXYZMat(m, x, y, z)
    {
      var a, b := m.cos(x), m.sin(x);
      var c, d := m.cos(y), m.sin(y);
      var e, f := m.cos(z), m.sin(z);
      Store(EulerEntries(a, b, c, d, e, f));
      self := this;
    }

    /** `compose` with no translation and unit scale. */
    method MakeRotationFromQuaternion(q: Quaternion) returns (self: Matrix4)
      requires Valid() && q.Valid()
      modifies arr
      ensures self == this && Valid()
      ensures Value() == RotationOfQuat(old(q.Value()))
    {
      self := Compose(POSITION_ZERO, q, SCALE_ONE);
    }

    /** Overwrites the matrix with translation, rotation and scale combined. */
    method Compose(position: Vector3, quaternion: Quaternion, scale: Vector3) returns (self: Matrix4)
      requires Valid() && quaternion.Valid()
      modifies arr
      ensures self == this && Valid()
      ensures Value() == ComposeMat(position, old(quaternion.Value()), scale)
    {
      var x, y, z, w := quaternion.arr[0], quaternion.arr[1], quaternion.arr[2], quaternion.arr[3];
      var sx, sy, sz := scale.x, scale.y, scale.z;
      Store(Placed(QuatRotationEntries(x, y, z, w), position.x, position.y, position.z, sx, sy, sz));
      self := this;
    }

    /** Overwrites the matrix with the perspective projection; `fovy` reaches `tan` as radians. */
    method Perspective(m: MathLib, fovy: real, aspect: real, near: real, far: real) returns (self: Matrix4)
      requires Valid()
      requires m.tan(fovy * 0.5) != 0.0 && aspect != 0.0 && near != far
      modifies arr
      ensures self == this && Valid()
      ensures Value() == PerspectiveMat(m, fovy, aspect, near, far)
    {
      var f := 1.0 / m.tan(fovy * 0.5);
      Store(PerspectiveEntries(f, aspect, near, far));
      self := this;
    }
  }
}
