/**
  * src/math/Vector3.ts: an immutable 3-vector. The constructor stores its
  * three arguments (each defaulting to 0), the getters read them back and
  * `extract` hands out the three components in order. The setters are
  * commented out in the source, so a value never changes after construction;
  * a datatype says exactly that.
  */
module Vectors {

  datatype Vector3 = Vector3(x: real := 0.0, y: real := 0.0, z: real := 0.0) {

    /** The backing array `[x, y, z]`. */
    function Extract(): (a: seq<real>)
      ensures |a| == 3 && a[0] == x && a[1] == y && a[2] == z
    {
      [x, y, z]
    }
  }

  /** Reads a vector back from a 3-element array, the inverse of `Extract`. */
  function FromArray(a: seq<real>): (v: Vector3)
    requires |a| == 3
    ensures v.x == a[0] && v.y == a[1] && v.z == a[2]
  {
    Vector3(a[0], a[1], a[2])
  }

  /** `Extract` and `FromArray` are inverse to each other. */
  lemma ExtractRoundTrip(v: Vector3, a: seq<real>)
    requires |a| == 3
    ensures FromArray(v.Extract()) == v
    ensures FromArray(a).Extract() == a
  {
  }

  /** Omitted constructor arguments are 0, and the getters return the arguments given. */
  lemma ConstructorDefaults(a: real, b: real)
    ensures Vector3() == Vector3(0.0, 0.0, 0.0)
    ensures Vector3(a) == Vector3(a, 0.0, 0.0) && Vector3(a, b) == Vector3(a, b, 0.0)
    ensures Vector3(a, b).x == a && Vector3(a, b).y == b && Vector3(a, b).z == 0.0
  {
  }

  const X_AXIS: Vector3 := Vector3(1.0, 0.0, 0.0)
  const Y_AXIS: Vector3 := Vector3(0.0, 1.0, 0.0)
  const Z_AXIS: Vector3 := Vector3(0.0, 0.0, 1.0)
  /** `POSITION_ZERO` and `SCALE_ONE` of src/math/Matrix4.ts. */
  const POSITION_ZERO: Vector3 := Vector3(0.0, 0.0, 0.0)
  const SCALE_ONE: Vector3 := Vector3(1.0, 1.0, 1.0)

  function LengthSquared(v: Vector3): real {
    v.x * v.x + v.y * v.y + v.z * v.z
  }
}
