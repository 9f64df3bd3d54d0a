/**
  * src/math/Quaternion.ts: rotations as unit quaternions `(x, y, z, w)`.
  *
  * The algebra is stated on the value type `Quat`; the source's class, which
  * keeps its four components in a fixed-size array and overwrites them in
  * place, is the class `Quaternion`, each of whose methods is proved to leave
  * the array holding the value the algebra prescribes.
  *
  * Every product of components goes through a function on plain numbers
  * (`Hamilton`, `SumSquares`, `EulerHalf`), and the polynomial identities are
  * proved on those, which keeps the nonlinear arithmetic small.
  */
module Quaternions {

  import opened Numerics
  import opened Vectors
  import opened Wrappers

  datatype Quat = Quat(x: real, y: real, z: real, w: real)

  /** The default of the constructor: the rotation by angle 0. */
  const IDENTITY: Quat := Quat(0.0, 0.0, 0.0, 1.0)

  /** The Hamilton product of `(ax, ay, az, aw)` and `(bx, bY, bz, bw)`, as `multiplyQuaternions` writes it. */
  function Hamilton(ax: real, ay: real, az: real, aw: real, bx: real, bY: real, bz: real, bw: real): Quat {
    Quat(
      ax * bw + aw * bx + ay * bz - az * bY,
      ay * bw + aw * bY + az * bx - ax * bz,
      az * bw + aw * bz + ax * bY - ay * bx,
      aw * bw - ax * bx - ay * bY - az * bz)
  }

  /** The product `a · b` (apply `b` first, then `a`). */
  function Mul(a: Quat, b: Quat): Quat {
    Hamilton(a.x, a.y, a.z, a.w, b.x, b.y, b.z, b.w)
  }

  function SumSquares(x: real, y: real, z: real, w: real): real {
    x * x + y * y + z * z + w * w
  }

  /** The squared norm; unit quaternions are the rotations. */
  function Norm2(q: Quat): real {
    SumSquares(q.x, q.y, q.z, q.w)
  }

  /** The identity quaternion is a unit of the product on both sides. */
  lemma MulIdentity(q: Quat)
    ensures Mul(IDENTITY, q) == q
    ensures Mul(q, IDENTITY) == q
  {
  }

  /** The squared norm is multiplicative, so products of rotations stay rotations. */
  lemma MulNorm(a: Quat, b: Quat)
    ensures Norm2(Mul(a, b)) == Norm2(a) * Norm2(b)
  {
    MulNormComponents(a, b);
    NormProduct(a, b);
  }

  lemma MulNormComponents(a: Quat, b: Quat)
    ensures Norm2(Mul(a, b)) == SumSquares(a.x, a.y, a.z, a.w) * SumSquares(b.x, b.y, b.z, b.w)
  {
    FourSquare(a.x, a.y, a.z, a.w, b.x, b.y, b.z, b.w);
  }

  lemma NormProduct(a: Quat, b: Quat)
    ensures Norm2(a) * Norm2(b) == SumSquares(a.x, a.y, a.z, a.w) * SumSquares(b.x, b.y, b.z, b.w)
  {
  }

  /** Euler's four-square identity on the components of the Hamilton product. */
  lemma FourSquare(ax: real, ay: real, az: real, aw: real, bx: real, bY: real, bz: real, bw: real)
    ensures Norm2(Hamilton(ax, ay, az, aw, bx, bY, bz, bw))
         == SumSquares(ax, ay, az, aw) * SumSquares(bx, bY, bz, bw)
  {
    assert Hamilton(ax, ay, az, aw, bx, bY, bz, bw) == Quat(
              ax * bw + aw * bx + ay * bz - az * bY,
              ay * bw + aw * bY + az * bx - ax * bz,
              az * bw + aw * bz + ax * bY - ay * bx,
              aw * bw - ax * bx - ay * bY - az * bz);
    FourSquarePoly(ax, ay, az, aw, bx, bY, bz, bw);
  }

  lemma FourSquarePoly(ax: real, ay: real, az: real, aw: real, bx: real, bY: real, bz: real, bw: real)
    ensures SumSquares(
              ax * bw + aw * bx + ay * bz - az * bY,
              ay * bw + aw * bY + az * bx - ax * bz,
              az * bw + aw * bz + ax * bY - ay * bx,
              aw * bw - ax * bx - ay * bY - az * bz)
         == SumSquares(ax, ay, az, aw) * SumSquares(bx, bY, bz, bw)
  {
  }

  /** The product of two unit quaternions is a unit quaternion. */
  lemma MulUnit(a: Quat, b: Quat)
    requires Norm2(a) == 1.0 && Norm2(b) == 1.0
    ensures Norm2(Mul(a, b)) == 1.0
  {
    MulNorm(a, b);
  }

  /** The rotation by `angle` about `axis`: `(axis · sin(angle/2), cos(angle/2))`. */
  function AxisAngle(m: MathLib, axis: Vector3, angle: real): Quat {
    var s := m.sin(angle / 2.0);
    Quat(axis.x * s, axis.y * s, axis.z * s, m.cos(angle / 2.0))
  }

  /** About a unit axis the result is a unit quaternion. */
  lemma AxisAngleUnit(m: MathLib, axis: Vector3, angle: real)
    requires Lawful(m) && LengthSquared(axis) == 1.0
    ensures Norm2(AxisAngle(m, axis, angle)) == 1.0
  {
    var s := m.sin(angle / 2.0);
    var c := m.cos(angle / 2.0);
    assert s * s + c * c == 1.0;
    ScaledSquares(axis.x, axis.y, axis.z, s, c);
  }

  lemma ScaledSquares(ax: real, ay: real, az: real, s: real, c: real)
    ensures SumSquares(ax * s, ay * s, az * s, c) == (ax * ax + ay * ay + az * az) * (s * s) + c * c
  {
  }

  /** A rotation by angle 0 about any axis is the identity. */
  lemma AxisAngleZero(m: MathLib, axis: Vector3)
    requires Lawful(m)
    ensures AxisAngle(m, axis, 0.0) == IDENTITY
  {
    assert 0.0 / 2.0 == 0.0;
  }

  /** The six rotation orders `setFromEuler` recognises. */
  datatype EulerOrder = XYZ | YXZ | ZXY | ZYX | YZX | XZY

  function OrderName(o: EulerOrder): string {
    match o
    case XYZ => "XYZ"
    case YXZ => "YXZ"
    case ZXY => "ZXY"
    case ZYX => "ZYX"
    case YZX => "YZX"
    case XZY => "XZY"
  }

  /** The order named by `s`, if `s` is one of the six names; otherwise none. */
  function ParseOrder(s: string): (o: Option<EulerOrder>)
    ensures o.Some? ==> OrderName(o.value) == s
  {
    if s == "XYZ" then Some(XYZ)
    else if s == "YXZ" then Some(YXZ)
    else if s == "ZXY" then Some(ZXY)
    else if s == "ZYX" then Some(ZYX)
    else if s == "YZX" then Some(YZX)
    else if s == "XZY" then Some(XZY)
    else None
  }

  /** Every order is parsed back from its own name, so no name is missing. */
  lemma ParseOrderName(o: EulerOrder)
    ensures ParseOrder(OrderName(o)) == Some(o)
  {
  }

  /**
    * The closed form `setFromEuler` writes for order `o`, from the half-angle
    * cosines `c1, c2, c3` and sines `s1, s2, s3` of the X, Y and Z angles.
    */
  function EulerHalf(o: EulerOrder, c1: real, c2: real, c3: real, s1: real, s2: real, s3: real): Quat {
    match o
    case XYZ =>
      Quat(s1 * c2 * c3 + c1 * s2 * s3, c1 * s2 * c3 - s1 * c2 * s3,
           c1 * c2 * s3 + s1 * s2 * c3, c1 * c2 * c3 - s1 * s2 * s3)
    case YXZ =>
      Quat(s1 * c2 * c3 + c1 * s2 * s3, c1 * s2 * c3 - s1 * c2 * s3,
           c1 * c2 * s3 - s1 * s2 * c3, c1 * c2 * c3 + s1 * s2 * s3)
    case ZXY =>
      Quat(s1 * c2 * c3 - c1 * s2 * s3, c1 * s2 * c3 + s1 * c2 * s3,
           c1 * c2 * s3 + s1 * s2 * c3, c1 * c2 * c3 - s1 * s2 * s3)
    case ZYX =>
      Quat(s1 * c2 * c3 - c1 * s2 * s3, c1 * s2 * c3 + s1 * c2 * s3,
           c1 * c2 * s3 - s1 * s2 * c3, c1 * c2 * c3 + s1 * s2 * s3)
    case YZX =>
      Quat(s1 * c2 * c3 + c1 * s2 * s3, c1 * s2 * c3 + s1 * c2 * s3,
           c1 * c2 * s3 - s1 * s2 * c3, c1 * c2 * c3 - s1 * s2 * s3)
    case XZY =>
      Quat(s1 * c2 * c3 - c1 * s2 * s3, c1 * s2 * c3 - s1 * c2 * s3,
           c1 * c2 * s3 + s1 * s2 * c3, c1 * c2 * c3 + s1 * s2 * s3)
  }

  /** The quaternion `setFromEuler` writes for angles `x, y, z` (radians) in order `o`. */
  function EulerQuat(m: MathLib, x: real, y: real, z: real, o: EulerOrder): Quat {
    EulerHalf(o, m.cos(x / 2.0), m.cos(y / 2.0), m.cos(z / 2.0), m.sin(x / 2.0), m.sin(y / 2.0), m.sin(z / 2.0))
  }

  datatype Axis = X | Y | Z

  /** The three letters of an order's name, first to last. */
  function Letters(o: EulerOrder): (Axis, Axis, Axis) {
    match o
    case XYZ => (X, Y, Z)
    case YXZ => (Y, X, Z)
    case ZXY => (Z, X, Y)
    case ZYX => (Z, Y, X)
    case YZX => (Y, Z, X)
    case XZY => (X, Z, Y)
  }

  /** The rotation by the angle belonging to axis `a` about that axis. */
  function AxisRotation(m: MathLib, x: real, y: real, z: real, a: Axis): Quat {
    match a
    case X => AxisAngle(m, X_AXIS, x)
    case Y => AxisAngle(m, Y_AXIS, y)
    case Z => AxisAngle(m, Z_AXIS, z)
  }

  /**
    * The reference meaning of an Euler order: the composition of the three
    * single-axis rotations in the order its letters name, the first letter
    * outermost (so "YXZ" is `qy · qx · qz`: roll about Z, then pitch about X,
    * then yaw about Y).
    */
  function EulerByAxes(m: MathLib, x: real, y: real, z: real, o: EulerOrder): Quat {
    var (a, b, c) := Letters(o);
    Mul(Mul(AxisRotation(m, x, y, z, a), AxisRotation(m, x, y, z, b)), AxisRotation(m, x, y, z, c))
  }

  /** Each closed-form branch of `setFromEuler` is the product of its axis rotations. */
  lemma EulerQuatIsAxisProduct(m: MathLib, x: real, y: real, z: real, o: EulerOrder)
    ensures EulerQuat(m, x, y, z, o) == EulerByAxes(m, x, y, z, o)
  {
    var c1, c2, c3 := m.cos(x / 2.0), m.cos(y / 2.0), m.cos(z / 2.0);
    var s1, s2, s3 := m.sin(x / 2.0), m.sin(y / 2.0), m.sin(z / 2.0);
    assert AxisAngle(m, X_AXIS, x) == Quat(s1, 0.0, 0.0, c1);
    assert AxisAngle(m, Y_AXIS, y) == Quat(0.0, s2, 0.0, c2);
    assert AxisAngle(m, Z_AXIS, z) == Quat(0.0, 0.0, s3, c3);
    match o
    case XYZ => AxisPairXY(s1, c1, s2, c2, s3, c3); AxisProductXYZ(s1, c1, s2, c2, s3, c3);
    case YXZ => AxisPairYX(s1, c1, s2, c2, s3, c3); AxisProductYXZ(s1, c1, s2, c2, s3, c3);
    case ZXY => AxisPairZX(s1, c1, s2, c2, s3, c3); AxisProductZXY(s1, c1, s2, c2, s3, c3);
    case ZYX => AxisPairZY(s1, c1, s2, c2, s3, c3); AxisProductZYX(s1, c1, s2, c2, s3, c3);
    case YZX => AxisPairYZ(s1, c1, s2, c2, s3, c3); AxisProductYZX(s1, c1, s2, c2, s3, c3);
    case XZY => AxisPairXZ(s1, c1, s2, c2, s3, c3); AxisProductXZY(s1, c1, s2, c2, s3, c3);
  }

  /** `qx · qy` on half-angle cosines and sines. */
  lemma AxisPairXY(s1: real, c1: real, s2: real, c2: real, s3: real, c3: real)
    ensures Hamilton(s1, 0.0, 0.0, c1, 0.0, s2, 0.0, c2)
         == Quat(s1 * c2, c1 * s2, s1 * s2, c1 * c2)
  {
  }

  /** The "XYZ" branch of `setFromEuler` is `qx · qy · qz`, on half-angle cosines and sines. */
  lemma AxisProductXYZ(s1: real, c1: real, s2: real, c2: real, s3: real, c3: real)
    ensures Hamilton(s1 * c2, c1 * s2, s1 * s2, c1 * c2, 0.0, 0.0, s3, c3)
         == EulerHalf(XYZ, c1, c2, c3, s1, s2, s3)
  {
  }

  /** `qy · qx` on half-angle cosines and sines. */
  lemma AxisPairYX(s1: real, c1: real, s2: real, c2: real, s3: real, c3: real)
    ensures Hamilton(0.0, s2, 0.0, c2, s1, 0.0, 0.0, c1)
         == Quat(c2 * s1, s2 * c1, (-s2 * s1), c2 * c1)
  {
  }

  /** The "YXZ" branch of `setFromEuler` is `qy · qx · qz`, on half-angle cosines and sines. */
  lemma AxisProductYXZ(s1: real, c1: real, s2: real, c2: real, s3: real, c3: real)
    ensures Hamilton(c2 * s1, s2 * c1, (-s2 * s1), c2 * c1, 0.0, 0.0, s3, c3)
         == EulerHalf(YXZ, c1, c2, c3, s1, s2, s3)
  {
  }

  /** `qz · qx` on half-angle cosines and sines. */
  lemma AxisPairZX(s1: real, c1: real, s2: real, c2: real, s3: real, c3: real)
    ensures Hamilton(0.0, 0.0, s3, c3, s1, 0.0, 0.0, c1)
         == Quat(c3 * s1, s3 * s1, s3 * c1, c3 * c1)
  {
  }

  /** The "ZXY" branch of `setFromEuler` is `qz · qx · qy`, on half-angle cosines and sines. */
  lemma AxisProductZXY(s1: real, c1: real, s2: real, c2: real, s3: real, c3: real)
    ensures Hamilton(c3 * s1, s3 * s1, s3 * c1, c3 * c1, 0.0, s2, 0.0, c2)
         == EulerHalf(ZXY, c1, c2, c3, s1, s2, s3)
  {
  }

  /** `qz · qy` on half-angle cosines and sines. */
  lemma AxisPairZY(s1: real, c1: real, s2: real, c2: real, s3: real, c3: real)
    ensures Hamilton(0.0, 0.0, s3, c3, 0.0, s2, 0.0, c2)
         == Quat((-s3 * s2), c3 * s2, s3 * c2, c3 * c2)
  {
  }

  /** The "ZYX" branch of `setFromEuler` is `qz · qy · qx`, on half-angle cosines and sines. */
  lemma AxisProductZYX(s1: real, c1: real, s2: real, c2: real, s3: real, c3: real)
    ensures Hamilton((-s3 * s2), c3 * s2, s3 * c2, c3 * c2, s1, 0.0, 0.0, c1)
         == EulerHalf(ZYX, c1, c2, c3, s1, s2, s3)
  {
  }

  /** `qy · qz` on half-angle cosines and sines. */
  lemma AxisPairYZ(s1: real, c1: real, s2: real, c2: real, s3: real, c3: real)
    ensures Hamilton(0.0, s2, 0.0, c2, 0.0, 0.0, s3, c3)
         == Quat(s2 * s3, s2 * c3, c2 * s3, c2 * c3)
  {
  }

  /** The "YZX" branch of `setFromEuler` is `qy · qz · qx`, on half-angle cosines and sines. */
  lemma AxisProductYZX(s1: real, c1: real, s2: real, c2: real, s3: real, c3: real)
    ensures Hamilton(s2 * s3, s2 * c3, c2 * s3, c2 * c3, s1, 0.0, 0.0, c1)
         == EulerHalf(YZX, c1, c2, c3, s1, s2, s3)
  {
  }

  /** `qx · qz` on half-angle cosines and sines. */
  lemma AxisPairXZ(s1: real, c1: real, s2: real, c2: real, s3: real, c3: real)
    ensures Hamilton(s1, 0.0, 0.0, c1, 0.0, 0.0, s3, c3)
         == Quat(s1 * c3, (-s1 * s3), c1 * s3, c1 * c3)
  {
  }

  /** The "XZY" branch of `setFromEuler` is `qx · qz · qy`, on half-angle cosines and sines. */
  lemma AxisProductXZY(s1: real, c1: real, s2: real, c2: real, s3: real, c3: real)
    ensures Hamilton(s1 * c3, (-s1 * s3), c1 * s3, c1 * c3, 0.0, s2, 0.0, c2)
         == EulerHalf(XZY, c1, c2, c3, s1, s2, s3)
  {
  }

  /** Zero angles give the identity rotation in every order. */
  lemma EulerZero(m: MathLib, o: EulerOrder)
    requires Lawful(m)
    ensures EulerQuat(m, 0.0, 0.0, 0.0, o) == IDENTITY
  {
    assert 0.0 / 2.0 == 0.0;
  }

  /** Every Euler quaternion is a unit quaternion. */
  lemma EulerUnit(m: MathLib, x: real, y: real, z: real, o: EulerOrder)
    requires Lawful(m)
    ensures Norm2(EulerQuat(m, x, y, z, o)) == 1.0
  {
    var (a, b, c) := Letters(o);
    var qa, qb, qc := AxisRotation(m, x, y, z, a), AxisRotation(m, x, y, z, b), AxisRotation(m, x, y, z, c);
    AxisRotationUnit(m, x, y, z, a);
    AxisRotationUnit(m, x, y, z, b);
    AxisRotationUnit(m, x, y, z, c);
    MulUnit(qa, qb);
    MulUnit(Mul(qa, qb), qc);
    EulerQuatIsAxisProduct(m, x, y, z, o);
  }

  lemma AxisRotationUnit(m: MathLib, x: real, y: real, z: real, a: Axis)
    requires Lawful(m)
    ensures Norm2(AxisRotation(m, x, y, z, a)) == 1.0
  {
    match a
    case X => AxisAngleUnit(m, X_AXIS, x);
    case Y => AxisAngleUnit(m, Y_AXIS, y);
    case Z => AxisAngleUnit(m, Z_AXIS, z);
  }

  /**
    * The source's mutable quaternion: four components in a fixed-size array
    * that every setter overwrites, returning `this` for chaining.
    */
  class Quaternion {

    const arr: array<real>

    ghost predicate Valid() {
      arr.Length == 4
    }

    /** The components the getters `x`, `y`, `z`, `w` currently return. */
    function Value(): (q: Quat)
      requires Valid()
      reads arr
      ensures q.x == arr[0] && q.y == arr[1] && q.z == arr[2] && q.w == arr[3]
    {
      Quat(arr[0], arr[1], arr[2], arr[3])
    }

    /** A fresh array holding the arguments, which default to the identity. */
    constructor (x: real := 0.0, y: real := 0.0, z: real := 0.0, w: real := 1.0)
      ensures Valid() && fresh(arr)
      ensures Value() == Quat(x, y, z, w)
    {
      var a := new real[4];
      a[0], a[1], a[2], a[3] := x, y, z, w;
      arr := a;
    }

    /** The backing array itself, not a copy. */
    function Extract(): (a: array<real>)
      ensures a == arr
    {
      arr
    }

    /**
      * Overwrites the components with the Euler quaternion of `x, y, z` in the
      * named order; a name that is not one of the six leaves them as they were.
      */
    method SetFromEuler(m: MathLib, x: real, y: real, z: real, order: string) returns (self: Quaternion)
      requires Valid()
      modifies arr
      ensures self == this && Valid()
      ensures ParseOrder(order).Some? ==> Value() == EulerQuat(m, x, y, z, ParseOrder(order).value)
      ensures ParseOrder(order).None? ==> Value() == old(Value())
    {
      var c1 := m.cos(x / 2.0);
      var c2 := m.cos(y / 2.0);
      var c3 := m.cos(z / 2.0);
      var s1 := m.sin(x / 2.0);
      var s2 := m.sin(y / 2.0);
      var s3 := m.sin(z / 2.0);
      // The chain of string comparisons on the order's name.
      var o := ParseOrder(order);
      if o.Some? {
        var q := EulerHalf(o.value, c1, c2, c3, s1, s2, s3);
        arr[0] := q.x;
        arr[1] := q.y;
        arr[2] := q.z;
        arr[3] := q.w;
      }
      self := this;
    }

    /** Overwrites the components with the rotation by `angle` about `axis`. */
    method SetFromAxisAngle(m: MathLib, axis: Vector3, angle: real) returns (self: Quaternion)
      requires Valid()
      modifies arr
      ensures self == this && Valid()
      ensures Value() == AxisAngle(m, axis, angle)
    {
      var halfAngle := angle / 2.0;
      var s := m.sin(halfAngle);
      arr[0] := axis.x * s;
      arr[1] := axis.y * s;
      arr[2] := axis.z * s;
      arr[3] := m.cos(halfAngle);
      self := this;
    }

    /** `this := this · q`, correct even when `q` is `this` itself. */
    method Multiply(q: Quaternion) returns (self: Quaternion)
      requires Valid() && q.Valid()
      modifies arr
      ensures self == this && Valid()
      ensures Value() == Mul(old(Value()), old(q.Value()))
    {
      self := MultiplyQuaternions(this, q);
    }

    /**
      * `this := a · b`. All eight inputs are read before the first write, so
      * either operand may share its array with `this`.
      */
    method MultiplyQuaternions(a: Quaternion, b: Quaternion) returns (self: Quaternion)
      requires Valid() && a.Valid() && b.Valid()
      modifies arr
      ensures self == this && Valid()
      ensures Value() == Mul(old(a.Value()), old(b.Value()))
    {
      var qax, qay, qaz, qaw := a.arr[0], a.arr[1], a.arr[2], a.arr[3];
      var qbx, qby, qbz, qbw := b.arr[0], b.arr[1], b.arr[2], b.arr[3];
      var q := Hamilton(qax, qay, qaz, qaw, qbx, qby, qbz, qbw);
      arr[0] := q.x;
      arr[1] := q.y;
      arr[2] := q.z;
      arr[3] := q.w;
      self := this;
    }
  }
}
