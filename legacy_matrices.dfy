/**
  * src/Matrix4.ts: the older matrix class. It keeps the same column-major
  * layout and the same entry formulas as src/math/Matrix4.ts, but offers only
  * `identity`, `makeRotationFromEulerXYZ` and `perspective`: its `multiply`
  * and `translate` are commented out, so this class has no product.
  */
module LegacyMatrices {

  import opened Numerics
  import opened Matrices

  class Matrix4 {

    const arr: array<real>

    ghost predicate Valid() {
      arr.Length == 16
    }

    function Value(): (m: Mat4)
      requires Valid()
      reads arr
    {
      Mat4(arr[0], arr[1], arr[2], arr[3], arr[4], arr[5], arr[6], arr[7],
           arr[8], arr[9], arr[10], arr[11], arr[12], arr[13], arr[14], arr[15])
    }

    /** A fresh 16-entry array, then `identity()`. */
    constructor ()
      ensures Valid() && fresh(arr)
      ensures Value() == IDENTITY_MAT
    {
      arr := new real[16];
      new;
      var _ := Identity();
    }

    function Extract(): (a: array<real>)
      ensures a == arr
    {
      arr
    }

    method Store(m: Mat4)
      requires Valid()
      modifies arr
      ensures Valid() && Value() == m
    {
      forall i | 0 <= i < 16 {
        arr[i] := Elements(m)[i];
      }
    }

    method Identity() returns (self: Matrix4)
      requires Valid()
      modifies arr
      ensures self == this && Valid()
      ensures Value() == IDENTITY_MAT
    {
      Store(IDENTITY_MAT);
      self := this;
    }

    method MakeRotationFromEulerXYZ(m: MathLib, x: real, y: real, z: real) returns (self: Matrix4)
      requires Valid()
      modifies arr
      ensures self == this && Valid()
      ensures Value() == EulerXYZMat(m, x, y, z)
    {
      var a, b := m.cos(x), m.sin(x);
      var c, d := m.cos(y), m.sin(y);
      var e, f := m.cos(z), m.sin(z);
      Store(EulerEntries(a, b, c, d, e, f));
      self := this;
    }

    method Perspective(m: MathLib, fovy: real, aspect: real, near: real, far: real) returns (self: Matrix4)
      requires Valid()
      requires m.tan(fovy * 0.5) != 0.0 && aspect != 0.0 && near != far
      modifies arr
      ensures self == this && Valid()
      ensures Value() == PerspectiveMat(m, fovy, aspect, near, far)
    {
      var f := 1.0 / m.tan(fovy * 0.5);
      Store(PerspectiveEntries(f, aspect, near, far));
      self := this;
    }
  }
}
