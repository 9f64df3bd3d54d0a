/**
  * src/DeviceOrientation.ts: turns the device's orientation sensor and the
  * screen's rotation into a camera quaternion.
  *
  * The sensor reports the angles alpha, beta and gamma of the
  * `deviceorientation` event of the W3C DeviceOrientation Event
  * Specification: intrinsic Tait-Bryan angles of type Z-X'-Y'', in degrees.
  * The class stores them in radians, adds calibration offsets, and recomputes
  * `Euler(beta, alpha, -gamma, "YXZ") · q1 · axisAngle(Z, -screen)`, where
  * `q1` turns the camera by -π/2 about X to look out of the back of the device.
  *
  * The window listeners become the two methods `OnDeviceOrientationChange`
  * and `OnScreenOrientationChange`, which take the event's values as
  * arguments (a value that is missing or not a number is `None`); whether
  * they are still registered is the field `listening`.
  */
module DeviceOrientations {

  import opened Numerics
  import opened Vectors
  import opened Wrappers
  import opened Quaternions
  import opened Events

  /** The rotation order handed to `setFromEuler`. */
  const ROTATION_ORDER: string := "YXZ"

  /** The camera's turn of -π/2 about the X axis, `(-√½, 0, 0, √½)`. */
  function Q1(m: MathLib): Quat {
    Quat(-m.sqrt(0.5), 0.0, 0.0, m.sqrt(0.5))
  }

  /**
    * A sensor angle in radians: `(v || d) · DEG2RAD`. Every falsy reading
    * (missing, not a number, or exactly 0) is replaced by the default `d`.
    */
  function SensorAngle(v: Option<real>, d: real): (r: real)
    ensures v.None? ==> r == d * DEG2RAD
    ensures v.Some? && v.value == 0.0 ==> r == d * DEG2RAD
    ensures v.Some? && v.value != 0.0 ==> r == v.value * DEG2RAD
  {
    (if v.None? || v.value == 0.0 then d else v.value) * DEG2RAD
  }

  /** A beta reading of exactly 0° is stored as 90°; alpha and gamma of 0 stay 0. */
  lemma ZeroBetaBecomesUpright()
    ensures SensorAngle(Some(0.0), 90.0) == PI_HALF
    ensures SensorAngle(Some(0.0), 0.0) == 0.0 && SensorAngle(None, 0.0) == 0.0
  {
  }

  /** The screen angle in radians: `(+orientation) · DEG2RAD || 0`. */
  function ScreenAngle(orientation: Option<real>): (r: real)
    ensures orientation.None? ==> r == 0.0
    ensures orientation.Some? ==> r == orientation.value * DEG2RAD
  {
    if orientation.None? then 0.0 else orientation.value * DEG2RAD
  }

  /**
    * The camera quaternion `update` computes from the offset-corrected angles
    * and the screen angle.
    */
  function DeviceQuat(m: MathLib, alpha: real, beta: real, gamma: real, orient: real): Quat {
    Mul(Mul(EulerQuat(m, beta, alpha, -gamma, YXZ), Q1(m)), AxisAngle(m, Z_AXIS, -orient))
  }

  lemma Q1Unit(m: MathLib)
    requires Lawful(m)
    ensures Norm2(Q1(m)) == 1.0
  {
    assert m.sqrt(0.5) * m.sqrt(0.5) == 0.5;
  }

  /** The camera quaternion is always a rotation. */
  lemma DeviceQuatUnit(m: MathLib, alpha: real, beta: real, gamma: real, orient: real)
    requires Lawful(m)
    ensures Norm2(DeviceQuat(m, alpha, beta, gamma, orient)) == 1.0
  {
    EulerUnit(m, beta, alpha, -gamma, YXZ);
    Q1Unit(m);
    MulUnit(EulerQuat(m, beta, alpha, -gamma, YXZ), Q1(m));
    AxisAngleUnit(m, Z_AXIS, -orient);
    MulUnit(Mul(EulerQuat(m, beta, alpha, -gamma, YXZ), Q1(m)), AxisAngle(m, Z_AXIS, -orient));
  }

  /**
    * Once calibrated (each offset the negated raw angle), the Euler part is the
    * identity and only the camera turn and the screen rotation remain.
    */
  lemma CalibratedDeviceQuat(m: MathLib, alpha: real, beta: real, gamma: real, orient: real)
    requires Lawful(m)
    ensures DeviceQuat(m, alpha + -alpha, beta + -beta, gamma + -gamma, orient)
         == Mul(Q1(m), AxisAngle(m, Z_AXIS, -orient))
  {
    assert alpha + -alpha == 0.0 && beta + -beta == 0.0 && -(gamma + -gamma) == 0.0;
    EulerZero(m, YXZ);
    MulIdentity(Q1(m));
  }

  class DeviceOrientation {

    /** The platform's `Math`. */
    const m: MathLib
    /** What the class inherits from `EventDispatcher`. */
    const dispatcher: EventDispatcher
    const quaternion: Quaternion
    /** The module-level `q0`, overwritten by every update before it is read. */
    const q0: Quaternion
    /** The module-level `q1`, never written. */
    const q1: Quaternion

    var offsetAlpha: real
    var offsetBeta: real
    var offsetGamma: real
    /** The stored raw angles in radians (`_deviceOrientation`). */
    var alpha: real
    var beta: real
    var gamma: real
    var screenOrientation: real
    /** Whether the two window listeners are registered; `destroy` removes them. */
    var listening: bool

    ghost predicate Valid()
      reads this, dispatcher, quaternion, q0, q1, quaternion.arr, q0.arr, q1.arr
    {
      && dispatcher.Valid()
      && quaternion.Valid() && q0.Valid() && q1.Valid()
      && quaternion.arr != q0.arr && quaternion.arr != q1.arr && q0.arr != q1.arr
      && q1.Value() == Q1(m)
    }

    /** The camera quaternion the current state prescribes. */
    ghost function Expected(): Quat
      reads this
    {
      DeviceQuat(m, alpha + offsetAlpha, beta + offsetBeta, gamma + offsetGamma, screenOrientation)
    }

    /**
      * The state the constructor leaves: raw angles (0, π/2, 0), zero offsets
      * and screen angle, the quaternion they prescribe, and the window
      * listeners registered.
      */
    ghost predicate Initial()
      reads this, quaternion, quaternion.arr
    {
      && listening
      && alpha == 0.0 && beta == PI / 2.0 && gamma == 0.0 && screenOrientation == 0.0
      && offsetAlpha == 0.0 && offsetBeta == 0.0 && offsetGamma == 0.0
      && quaternion.Valid() && quaternion.Value() == Expected()
    }

    /**
      * Raw angles (0, π/2, 0), zero offsets and screen angle, then one
      * `update`, so the quaternion is defined before any sensor event.
      */
    constructor (m: MathLib)
      ensures Valid() && this.m == m && fresh(dispatcher) && fresh(quaternion) && fresh(quaternion.arr)
      ensures dispatcher.listeners == map[]
      ensures Initial()
    {
      this.m := m;
      dispatcher := new EventDispatcher();
      quaternion := new Quaternion();
      q0 := new Quaternion();
      var s := m.sqrt(0.5);
      q1 := new Quaternion(-s, 0.0, 0.0, s);
      offsetAlpha, offsetBeta, offsetGamma := 0.0, 0.0, 0.0;
      alpha, beta, gamma := 0.0, PI / 2.0, 0.0;
      screenOrientation := 0.0;
      listening := true;
      new;
      var _ := Update();
    }

    /**
      * Recomputes the quaternion from the corrected angles and then dispatches
      * exactly one 'updated' event; returns the listeners it called.
      */
    method Update() returns (fired: seq<Listener>)
      requires Valid()
      modifies quaternion.arr, q0.arr
      ensures Valid()
      ensures quaternion.Value() == Expected()
      ensures fired == ListenersOf(dispatcher.listeners, "updated")
    {
      Orient();
      fired := Notify();
    }

    /** `dispatchEvent({ type: 'updated' })`, on a fresh event object. */
    method Notify() returns (fired: seq<Listener>)
      ensures fired == ListenersOf(dispatcher.listeners, "updated")
    {
      var event := new DispatcherEvent("updated");
      fired := dispatcher.DispatchEvent(event);
    }

    /** The three in-place steps: orient the device, turn the camera, correct for the screen. */
    method Orient()
      requires quaternion.Valid() && q0.Valid() && q1.Valid()
      requires quaternion.arr != q0.arr && quaternion.arr != q1.arr && q0.arr != q1.arr
      requires q1.Value() == Q1(m)
      modifies quaternion.arr, q0.arr
      ensures quaternion.Value() == Expected()
    {
      var orient := screenOrientation;
      var a, b, g := alpha + offsetAlpha, beta + offsetBeta, gamma + offsetGamma;
      TurnDevice(a, b, g);
      ghost var turned := quaternion.Value();
      var turn := q0.SetFromAxisAngle(m, Z_AXIS, -orient);
      assert quaternion.Value() == turned;
      var _ := quaternion.Multiply(turn);
      assert quaternion.Value() == DeviceQuat(m, a, b, g, orient);
    }

    /** The first two steps: `setFromEuler(beta, alpha, -gamma, 'YXZ')`, then `multiply(q1)`. */
    method TurnDevice(a: real, b: real, g: real)
      requires quaternion.Valid() && q1.Valid() && quaternion.arr != q1.arr
      requires q1.Value() == Q1(m)
      modifies quaternion.arr
      ensures quaternion.Value() == Mul(EulerQuat(m, b, a, -g, YXZ), Q1(m))
    {
      assert ParseOrder(ROTATION_ORDER) == Some(YXZ);
      var _ := quaternion.SetFromEuler(m, b, a, -g, ROTATION_ORDER);
      var _ := quaternion.Multiply(q1);
    }

    /**
      * The window's `deviceorientation` event: while the listener is
      * registered it stores the defaulted angles and updates; once `destroy`
      * has removed it, nothing happens.
      */
    method OnDeviceOrientationChange(eventAlpha: Option<real>, eventBeta: Option<real>, eventGamma: Option<real>)
      returns (fired: seq<Listener>)
      requires Valid()
      modifies this, quaternion.arr, q0.arr
      ensures Valid() && listening == old(listening)
      ensures !listening ==> unchanged(this) && unchanged(quaternion.arr) && fired == []
      ensures listening ==> alpha == SensorAngle(eventAlpha, 0.0)
      ensures listening ==> beta == SensorAngle(eventBeta, 90.0)
      ensures listening ==> gamma == SensorAngle(eventGamma, 0.0)
      ensures offsetAlpha == old(offsetAlpha) && offsetBeta == old(offsetBeta) && offsetGamma == old(offsetGamma)
      ensures screenOrientation == old(screenOrientation)
      ensures listening ==> quaternion.Value() == Expected()
      ensures listening ==> fired == ListenersOf(dispatcher.listeners, "updated")
    {
      if !listening {
        return [];
      }
      alpha := SensorAngle(eventAlpha, 0.0);
      beta := SensorAngle(eventBeta, 90.0);
      gamma := SensorAngle(eventGamma, 0.0);
      fired := Update();
    }

    /** The window's `orientationchange` event: stores the screen angle and updates, while registered. */
    method OnScreenOrientationChange(orientation: Option<real>) returns (fired: seq<Listener>)
      requires Valid()
      modifies this, quaternion.arr, q0.arr
      ensures Valid() && listening == old(listening)
      ensures !listening ==> unchanged(this) && unchanged(quaternion.arr) && fired == []
      ensures listening ==> screenOrientation == ScreenAngle(orientation)
      ensures alpha == old(alpha) && beta == old(beta) && gamma == old(gamma)
      ensures offsetAlpha == old(offsetAlpha) && offsetBeta == old(offsetBeta) && offsetGamma == old(offsetGamma)
      ensures listening ==> quaternion.Value() == Expected()
      ensures listening ==> fired == ListenersOf(dispatcher.listeners, "updated")
    {
      if !listening {
        return [];
      }
      screenOrientation := ScreenAngle(orientation);
      fired := Update();
    }

    /** `destroy`: removes the two window listeners; the readings and the quaternion stay. */
    method Destroy()
      requires Valid()
      modifies this
      ensures Valid() && !listening
      ensures alpha == old(alpha) && beta == old(beta) && gamma == old(gamma)
      ensures offsetAlpha == old(offsetAlpha) && offsetBeta == old(offsetBeta) && offsetGamma == old(offsetGamma)
      ensures screenOrientation == old(screenOrientation)
    {
      listening := false;
    }

    /**
      * Sets each offset to the negated raw angle and nothing else: the
      * quaternion is not recomputed and no event is dispatched, so it keeps
      * its value until the next update.
      */
    method Calibrate()
      requires Valid()
      modifies this
      ensures Valid()
      ensures offsetAlpha == -alpha && offsetBeta == -beta && offsetGamma == -gamma
      ensures alpha == old(alpha) && beta == old(beta) && gamma == old(gamma)
      ensures screenOrientation == old(screenOrientation) && listening == old(listening)
    {
      offsetAlpha := -alpha;
      offsetBeta := -beta;
      offsetGamma := -gamma;
    }
  }
}
