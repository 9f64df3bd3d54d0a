/**
  * The `SphericalImage` of dist/spherical-image.module.js: the controller of
  * the compiled bundle. Against src/SphericalImage.ts it damps over a frame of
  * 8 instead of 16, drags at 0.2° per pixel, uses the newer matrix class, and
  * turns the view by the device's orientation: the rendered view is the
  * Euler-XYZ rotation of the current angles times the rotation of the device
  * quaternion. The device's 'updated' event, `setSize` and `calibrate` each
  * schedule a render besides the mesh's 'textureUpdated'.
  *
  * The module-level scratch matrices `mat4a` and `mat4b` are held per viewer;
  * the window's sensor listeners become `OnDeviceOrientationChange` and
  * `OnScreenOrientationChange`, forwarded to the device object.
  */
module DeviceViewers {

  import opened Numerics
  import opened Wrappers
  import opened Events
  import opened Quaternions
  import opened Textures
  import opened Cameras
  import opened Meshes
  import opened BundleMeshes
  import opened DeviceOrientations
  import Matrices

  /** The viewer's 'textureUpdated' listener. */
  const RENDER_ON_TEXTURE: Listener := 1
  /** The viewer's 'updated' listener on the device object. */
  const RENDER_ON_DEVICE: Listener := 2

  /** Degrees of rotation per dragged pixel. */
  const DRAG_RATE: real := -0.2

  /** The damping's frame length: `exp(-dampingFactor * delta / 8)`. */
  const DAMPING_FRAME: real := 8.0

  /** The device event the viewer listens for. */
  const DEVICE_UPDATED: string := "updated"

  /** The view `_render` builds: `mat4a × mat4b`, the camera's rotation turned by the device's. */
  function ViewOf(m: MathLib, pitch: real, yaw: real, device: Quat): Matrices.Mat4 {
    Matrices.Product(Matrices.EulerXYZMat(m, pitch, yaw, 0.0), Matrices.RotationOfQuat(device))
  }

  /**
    * With the device at rest in the identity orientation, the view is the
    * camera's own rotation; with no camera rotation either, it is the
    * identity. Any unit device quaternion turns the view by a rotation.
    */
  lemma ViewOfProperties(m: MathLib, pitch: real, yaw: real, device: Quat)
    requires Lawful(m)
    ensures ViewOf(m, pitch, yaw, IDENTITY) == Matrices.EulerXYZMat(m, pitch, yaw, 0.0)
    ensures ViewOf(m, 0.0, 0.0, IDENTITY) == Matrices.IDENTITY_MAT
    ensures Norm2(device) == 1.0 ==> Matrices.Orthonormal(Matrices.RotationOfQuat(device))
  {
    Matrices.ComposeIdentity();
    Matrices.ProductIdentity(Matrices.EulerXYZMat(m, pitch, yaw, 0.0));
    Matrices.EulerXYZZero(m);
    if Norm2(device) == 1.0 {
      Matrices.RotationOfUnitQuatOrthonormal(device);
    }
  }

  /** A fresh matrix of the newer class set to `perspective(CAMERA_FOV, width / height, CAMERA_NEAR, CAMERA_FAR)`. */
  method NewProjection(m: MathLib, width: real, height: real) returns (p: Matrices.Matrix4)
    requires m.tan(CAMERA_FOV * 0.5) != 0.0 && width != 0.0 && height != 0.0
    ensures fresh(p) && fresh(p.arr) && p.Valid()
    ensures p.Value() == Matrices.PerspectiveMat(m, CAMERA_FOV, width / height, CAMERA_NEAR, CAMERA_FAR)
  {
    p := new Matrices.Matrix4();
    var _ := p.Perspective(m, CAMERA_FOV, width / height, CAMERA_NEAR, CAMERA_FAR);
  }

  /**
    * The viewer's mesh, created with `offsetAzimuth || 0` and
    * `offsetAltitude || 0` and the texture source, with the viewer's
    * 'textureUpdated' listener as its only listener.
    */
  method NewListenedMesh(m: MathLib, attributes: Attributes, source: TextureSource, azimuth: real, altitude: real,
                         maxTextureSize: nat, freshId: nat)
    returns (mesh: BundleMeshes.SphereMesh)
    requires SphereAttributes(m, Meshes.PHI_OFFSET, attributes)
    ensures fresh(mesh) && fresh(mesh.dispatcher) && fresh(mesh.modelMatrix.arr) && mesh.Valid()
    ensures mesh.dispatcher.listeners == map[TEXTURE_UPDATED := [RENDER_ON_TEXTURE]]
    ensures mesh.modelMatrix.Value() == Matrices.EulerXYZMat(m, azimuth, altitude, 0.0)
    ensures mesh.baseTexture == if TakesAtOnce(source) then PowerOfTwoTexture(source.picture, maxTextureSize, freshId)
                                else EMPTY_TEXTURE
    ensures mesh.pending == Awaited(source)
  {
    mesh := new BundleMeshes.SphereMesh(m, attributes, source, Some(azimuth), Some(altitude), maxTextureSize, freshId);
    mesh.dispatcher.AddEventListener(TEXTURE_UPDATED, RENDER_ON_TEXTURE);
    assert mesh.dispatcher.listeners == map[TEXTURE_UPDATED := [RENDER_ON_TEXTURE]];
  }

  /** The viewer's four matrices and its mesh, fresh and apart. */
  method NewMatricesAndMesh(m: MathLib, attributes: Attributes, source: TextureSource, width: real, height: real,
                            azimuth: real, altitude: real, maxTextureSize: nat, freshId: nat)
    returns (view: Matrices.Matrix4, a: Matrices.Matrix4, b: Matrices.Matrix4, projection: Matrices.Matrix4,
             mesh: BundleMeshes.SphereMesh)
    requires m.tan(CAMERA_FOV * 0.5) != 0.0 && width != 0.0 && height != 0.0
    requires SphereAttributes(m, Meshes.PHI_OFFSET, attributes)
    ensures fresh(view.arr) && fresh(a.arr) && fresh(b.arr) && fresh(projection.arr)
    ensures view.Valid() && a.Valid() && b.Valid() && projection.Valid()
    ensures view.arr != projection.arr && view.arr != a.arr && view.arr != b.arr
    ensures a.arr != b.arr && projection.arr != a.arr && projection.arr != b.arr
    ensures projection.Value() == Matrices.PerspectiveMat(m, CAMERA_FOV, width / height, CAMERA_NEAR, CAMERA_FAR)
    ensures fresh(mesh) && fresh(mesh.dispatcher) && fresh(mesh.modelMatrix.arr) && mesh.Valid()
    ensures mesh.modelMatrix.arr !in {view.arr, a.arr, b.arr}
    ensures mesh.dispatcher.listeners == map[TEXTURE_UPDATED := [RENDER_ON_TEXTURE]]
    ensures mesh.modelMatrix.Value() == Matrices.EulerXYZMat(m, azimuth, altitude, 0.0)
    ensures mesh.baseTexture == if TakesAtOnce(source) then PowerOfTwoTexture(source.picture, maxTextureSize, freshId)
                                else EMPTY_TEXTURE
    ensures mesh.pending == Awaited(source)
  {
    view := new Matrices.Matrix4();
    a := new Matrices.Matrix4();
    b := new Matrices.Matrix4();
    projection := NewProjection(m, width, height);
    mesh := NewListenedMesh(m, attributes, source, azimuth, altitude, maxTextureSize, freshId);
  }

  /** The two rotations at 0 and the device object in its initial state. */
  method NewRotationsAndDevice(m: MathLib) returns (current: array<real>, target: array<real>, device: DeviceOrientation)
    ensures fresh(current) && fresh(target) && current != target && Zero(current) && Zero(target)
    ensures fresh(device) && fresh(device.dispatcher) && fresh(device.quaternion.arr)
    ensures device.Valid() && device.m == m && device.Initial() && device.dispatcher.listeners == map[]
  {
    current := ZeroRotation();
    target := ZeroRotation();
    device := new DeviceOrientation(m);
  }

  class SphericalImage {

    const m: MathLib
    /** Current (pitch, yaw, roll); roll is never used. */
    const cameraRotation: array<real>
    /** Target (pitch, yaw, roll). */
    const cameraRotationTo: array<real>
    const viewMatrix: Matrices.Matrix4
    const projectionMatrix: Matrices.Matrix4
    /** The scratch matrices `_render` writes the two factors of the view into. */
    const mat4a: Matrices.Matrix4
    const mat4b: Matrices.Matrix4
    const sphereMesh: BundleMeshes.SphereMesh
    const deviceOrientation: DeviceOrientation

    var width: real
    var height: real
    var willRender: bool
    var destroyed: bool
    var dampingFactor: real
    /** The timestamp of the previous frame, a variable of the constructor's closure. */
    var lastElapsedTime: real

    /** The objects the viewer owns are well formed and apart. */
    ghost predicate Valid()
      reads this, sphereMesh, sphereMesh.dispatcher
    {
      && cameraRotation.Length == 3 && cameraRotationTo.Length == 3 && cameraRotation != cameraRotationTo
      && viewMatrix.Valid() && projectionMatrix.Valid() && mat4a.Valid() && mat4b.Valid()
      && viewMatrix.arr != projectionMatrix.arr && viewMatrix.arr != mat4a.arr && viewMatrix.arr != mat4b.arr
      && mat4a.arr != mat4b.arr && projectionMatrix.arr != mat4a.arr && projectionMatrix.arr != mat4b.arr
      && sphereMesh.Valid()
      && sphereMesh.dispatcher.listeners == map[TEXTURE_UPDATED := [RENDER_ON_TEXTURE]]
      && deviceOrientation.quaternion.Valid() && deviceOrientation.dispatcher != sphereMesh.dispatcher
    }

    /**
      * The viewer's listener on the device and the device's window
      * listeners: registered while the viewer is live, and all dropped once
      * it is destroyed.
      */
    ghost predicate Wired()
      reads this, deviceOrientation, deviceOrientation.dispatcher
    {
      && (!destroyed ==> deviceOrientation.dispatcher.listeners == map[DEVICE_UPDATED := [RENDER_ON_DEVICE]])
      && (destroyed ==> deviceOrientation.dispatcher.listeners == map[])
      && deviceOrientation.listening == !destroyed
    }

    /**
      * Creates the device object first, then the projection and the mesh
      * with its listener; runs the first animation frame at once, which
      * renders the initial view from the device's initial quaternion and
      * clears the flag; and only then listens to the device.
      */
    constructor (m: MathLib, attributes: Attributes, source: TextureSource, width: real, height: real,
                 offsetAzimuth: Option<real>, offsetAltitude: Option<real>, maxTextureSize: nat, freshId: nat)
      requires m.tan(CAMERA_FOV * 0.5) != 0.0 && width != 0.0 && height != 0.0
      requires SphereAttributes(m, Meshes.PHI_OFFSET, attributes)
      ensures Valid() && Wired() && deviceOrientation.Valid() && fresh(sphereMesh) && fresh(sphereMesh.dispatcher) && fresh(deviceOrientation)
      ensures fresh(cameraRotation) && fresh(cameraRotationTo) && fresh(viewMatrix.arr) && fresh(projectionMatrix.arr)
      ensures fresh(mat4a.arr) && fresh(mat4b.arr)
      ensures this.m == m && this.width == width && this.height == height
      ensures dampingFactor == 0.1 && !destroyed && lastElapsedTime == 0.0
      ensures Zero(cameraRotation) && Zero(cameraRotationTo)
      ensures projectionMatrix.Value() == Matrices.PerspectiveMat(m, CAMERA_FOV, width / height, CAMERA_NEAR, CAMERA_FAR)
      ensures sphereMesh.modelMatrix.Value() ==
              Matrices.EulerXYZMat(m, OrZero(offsetAzimuth), OrZero(offsetAltitude), 0.0)
      ensures sphereMesh.baseTexture == if TakesAtOnce(source) then PowerOfTwoTexture(source.picture, maxTextureSize, freshId)
                                        else EMPTY_TEXTURE
      ensures sphereMesh.pending == Awaited(source)
      ensures deviceOrientation.m == m && deviceOrientation.Initial()
      ensures !willRender && viewMatrix.Value() == ViewOf(m, 0.0, 0.0, deviceOrientation.quaternion.Value())
    {
      this.m := m;
      this.width, this.height := width, height;
      dampingFactor := 0.1;
      willRender := true;
      destroyed := false;
      lastElapsedTime := 0.0;
      var current, target, device := NewRotationsAndDevice(m);
      cameraRotation, cameraRotationTo, deviceOrientation := current, target, device;
      var view, a, b, projection, mesh := NewMatricesAndMesh(m, attributes, source, width, height,
                                                            OrZero(offsetAzimuth), OrZero(offsetAltitude), maxTextureSize, freshId);
      viewMatrix, mat4a, mat4b, projectionMatrix, sphereMesh := view, a, b, projection, mesh;
      new;
      Start();
    }

    /**
      * What the constructor does once the fields are set: the immediate
      * `tick(0)`, and then the listener on the device object.
      */
    method Start()
      requires Valid() && willRender && !destroyed && lastElapsedTime == 0.0
      requires Zero(cameraRotation) && Zero(cameraRotationTo)
      requires deviceOrientation.Valid() && deviceOrientation.listening && deviceOrientation.dispatcher.listeners == map[]
      requires sphereMesh.modelMatrix.arr !in {viewMatrix.arr, mat4a.arr, mat4b.arr}
      modifies this, cameraRotation, cameraRotationTo, viewMatrix.arr, mat4a.arr, mat4b.arr, deviceOrientation.dispatcher
      ensures Valid() && Wired() && deviceOrientation.Valid()
      ensures !willRender && !destroyed && lastElapsedTime == 0.0
      ensures width == old(width) && height == old(height) && dampingFactor == old(dampingFactor)
      ensures Zero(cameraRotation) && Zero(cameraRotationTo)
      ensures viewMatrix.Value() == ViewOf(m, 0.0, 0.0, deviceOrientation.quaternion.Value())
      ensures unchanged(deviceOrientation, deviceOrientation.quaternion.arr)
      ensures unchanged(projectionMatrix.arr, sphereMesh, sphereMesh.modelMatrix.arr)
    {
      FirstFrame();
      ghost var view := viewMatrix.Value();
      deviceOrientation.dispatcher.AddEventListener(DEVICE_UPDATED, RENDER_ON_DEVICE);
      assert viewMatrix.Value() == view;
      assert deviceOrientation.dispatcher.listeners == map[DEVICE_UPDATED := [RENDER_ON_DEVICE]];
    }

    /** The constructor's immediate `tick(0)`, from the initial state. */
    method FirstFrame()
      requires Valid() && willRender && !destroyed && lastElapsedTime == 0.0
      requires Zero(cameraRotation) && Zero(cameraRotationTo)
      modifies this, cameraRotation, cameraRotationTo, viewMatrix.arr, mat4a.arr, mat4b.arr
      ensures Valid() && !willRender && !destroyed && lastElapsedTime == 0.0
      ensures width == old(width) && height == old(height) && dampingFactor == old(dampingFactor)
      ensures Zero(cameraRotation) && Zero(cameraRotationTo)
      ensures viewMatrix.Value() == ViewOf(m, 0.0, 0.0, deviceOrientation.quaternion.Value())
    {
      assert !Unsettled(cameraRotationTo[0] - cameraRotation[0], cameraRotationTo[1] - cameraRotation[1]);
      Tick(0.0);
    }

    /** A pointer move by (`deltaX`, `deltaY`) pixels turns the target; nothing is scheduled. */
    method Drag(deltaX: real, deltaY: real)
      requires Valid()
      modifies cameraRotationTo
      ensures cameraRotationTo[0] == old(cameraRotationTo[0]) + DragAngle(deltaY, DRAG_RATE)
      ensures cameraRotationTo[1] == old(cameraRotationTo[1]) + DragAngle(deltaX, DRAG_RATE)
      ensures cameraRotationTo[2] == old(cameraRotationTo[2])
    {
      cameraRotationTo[0] := cameraRotationTo[0] + DragAngle(deltaY, DRAG_RATE);
      cameraRotationTo[1] := cameraRotationTo[1] + DragAngle(deltaX, DRAG_RATE);
    }

    /**
      * `updateCameraRotation(delta)` with the frame length 8: unless both axes
      * are within 1e-5 of their targets, both ease toward them and a render
      * is scheduled; otherwise nothing changes.
      */
    method UpdateCameraRotation(delta: real)
      requires Valid()
      modifies this, cameraRotation
      ensures Valid()
      ensures width == old(width) && height == old(height) && destroyed == old(destroyed)
      ensures dampingFactor == old(dampingFactor) && lastElapsedTime == old(lastElapsedTime)
      ensures var r := LerpRatio(m, dampingFactor, delta, DAMPING_FRAME);
              Unsettled(old(cameraRotationTo[0] - cameraRotation[0]), old(cameraRotationTo[1] - cameraRotation[1])) ==>
                && cameraRotation[0] == Approach(old(cameraRotation[0]), cameraRotationTo[0], r)
                && cameraRotation[1] == Approach(old(cameraRotation[1]), cameraRotationTo[1], r)
                && willRender
      ensures !Unsettled(old(cameraRotationTo[0] - cameraRotation[0]), old(cameraRotationTo[1] - cameraRotation[1])) ==>
                cameraRotation[0] == old(cameraRotation[0]) && cameraRotation[1] == old(cameraRotation[1])
                && willRender == old(willRender)
      ensures cameraRotation[2] == old(cameraRotation[2])
    {
      var lerpRatio := LerpRatio(m, dampingFactor, delta, DAMPING_FRAME);
      var deltaX := cameraRotationTo[0] - cameraRotation[0];
      var deltaY := cameraRotationTo[1] - cameraRotation[1];
      if Unsettled(deltaX, deltaY) {
        cameraRotation[0] := Approach(cameraRotation[0], cameraRotationTo[0], lerpRatio);
        cameraRotation[1] := Approach(cameraRotation[1], cameraRotationTo[1], lerpRatio);
        willRender := true;
      }
    }

    /**
      * The three matrix steps of `_render`: `mat4a` from the current angles,
      * `mat4b` from the device quaternion, and the view their product.
      */
    method ComposeView()
      requires Valid()
      modifies viewMatrix.arr, mat4a.arr, mat4b.arr
      ensures Valid()
      ensures mat4a.Value() == Matrices.EulerXYZMat(m, cameraRotation[0], cameraRotation[1], 0.0)
      ensures mat4b.Value() == Matrices.RotationOfQuat(deviceOrientation.quaternion.Value())
      ensures viewMatrix.Value() == ViewOf(m, cameraRotation[0], cameraRotation[1], deviceOrientation.quaternion.Value())
    {
      var _ := mat4a.MakeRotationFromEulerXYZ(m, cameraRotation[0], cameraRotation[1], 0.0);
      var _ := mat4b.MakeRotationFromQuaternion(deviceOrientation.quaternion);
      var _ := viewMatrix.MultiplyMatrices(mat4a, mat4b);
    }

    /**
      * `_render`: when scheduled, draws and clears the flag; otherwise
      * nothing changes.
      */
    method Render()
      requires Valid()
      modifies this, cameraRotationTo, viewMatrix.arr, mat4a.arr, mat4b.arr
      ensures Valid()
      ensures width == old(width) && height == old(height) && destroyed == old(destroyed)
      ensures dampingFactor == old(dampingFactor) && lastElapsedTime == old(lastElapsedTime)
      ensures !willRender
      ensures old(willRender) ==> cameraRotationTo[0] == ClampPitch(old(cameraRotationTo[0]))
      ensures old(willRender) ==>
                viewMatrix.Value() == ViewOf(m, cameraRotation[0], cameraRotation[1], deviceOrientation.quaternion.Value())
      ensures !old(willRender) ==> unchanged(cameraRotationTo) && unchanged(viewMatrix.arr)
      ensures cameraRotationTo[1] == old(cameraRotationTo[1]) && cameraRotationTo[2] == old(cameraRotationTo[2])
    {
      if !willRender {
        return;
      }
      Draw();
      willRender := false;
    }

    /**
      * The scheduled part of `_render`: clamps the target pitch (the current
      * pitch is left as it is) and views from the current rotation turned by
      * the device.
      */
    method Draw()
      requires Valid()
      modifies cameraRotationTo, viewMatrix.arr, mat4a.arr, mat4b.arr
      ensures Valid()
      ensures cameraRotationTo[0] == ClampPitch(old(cameraRotationTo[0]))
      ensures cameraRotationTo[1] == old(cameraRotationTo[1]) && cameraRotationTo[2] == old(cameraRotationTo[2])
      ensures viewMatrix.Value() == ViewOf(m, cameraRotation[0], cameraRotation[1], deviceOrientation.quaternion.Value())
    {
      ghost var pitch, yaw, q := cameraRotation[0], cameraRotation[1], deviceOrientation.quaternion.Value();
      ghost var view := ViewOf(m, pitch, yaw, q);
      cameraRotationTo[0] := Min(cameraRotationTo[0], PITCH_LIMIT);
      cameraRotationTo[0] := Max(cameraRotationTo[0], -PITCH_LIMIT);
      ComposeView();
      assert viewMatrix.Value() == view;
    }

    /**
      * One animation frame at timestamp `elapsed`: nothing once destroyed;
      * otherwise the damping step over the time since the previous frame,
      * then `_render`. Afterwards no render is pending.
      */
    method Tick(elapsed: real)
      requires Valid()
      modifies this, cameraRotation, cameraRotationTo, viewMatrix.arr, mat4a.arr, mat4b.arr
      ensures Valid()
      ensures width == old(width) && height == old(height) && destroyed == old(destroyed)
      ensures dampingFactor == old(dampingFactor)
      ensures old(destroyed) ==> unchanged(this) && unchanged(cameraRotation) && unchanged(cameraRotationTo)
      ensures old(destroyed) ==> unchanged(viewMatrix.arr)
      ensures !old(destroyed) ==> !willRender && lastElapsedTime == elapsed
      ensures cameraRotation[2] == old(cameraRotation[2]) && cameraRotationTo[2] == old(cameraRotationTo[2])
      ensures !old(destroyed) ==>
                var r := LerpRatio(m, dampingFactor, elapsed - old(lastElapsedTime), DAMPING_FRAME);
                var moved := Unsettled(old(cameraRotationTo[0] - cameraRotation[0]), old(cameraRotationTo[1] - cameraRotation[1]));
                var rendered := moved || old(willRender);
                && cameraRotation[0] == (if moved then Approach(old(cameraRotation[0]), old(cameraRotationTo[0]), r) else old(cameraRotation[0]))
                && cameraRotation[1] == (if moved then Approach(old(cameraRotation[1]), old(cameraRotationTo[1]), r) else old(cameraRotation[1]))
                && cameraRotationTo[0] == (if rendered then ClampPitch(old(cameraRotationTo[0])) else old(cameraRotationTo[0]))
                && cameraRotationTo[1] == old(cameraRotationTo[1])
                && (rendered ==> viewMatrix.Value() == ViewOf(m, cameraRotation[0], cameraRotation[1], deviceOrientation.quaternion.Value()))
                && (!rendered ==> unchanged(viewMatrix.arr))
    {
      if destroyed {
        return;
      }
      var delta := elapsed - lastElapsedTime;
      UpdateCameraRotation(delta);
      ghost var view := ViewOf(m, cameraRotation[0], cameraRotation[1], deviceOrientation.quaternion.Value());
      ghost var scheduled := willRender;
      Render();
      assert scheduled ==> viewMatrix.Value() == view;
      lastElapsedTime := elapsed;
    }

    /** `setSize`: a new projection for the new aspect ratio, and a render is scheduled. */
    method SetSize(width: real, height: real)
      requires Valid() && m.tan(CAMERA_FOV * 0.5) != 0.0 && width != 0.0 && height != 0.0
      modifies this, projectionMatrix.arr
      ensures Valid()
      ensures this.width == width && this.height == height && willRender
      ensures destroyed == old(destroyed) && dampingFactor == old(dampingFactor) && lastElapsedTime == old(lastElapsedTime)
      ensures projectionMatrix.Value() == Matrices.PerspectiveMat(m, CAMERA_FOV, width / height, CAMERA_NEAR, CAMERA_FAR)
    {
      this.width, this.height := width, height;
      var _ := projectionMatrix.Perspective(m, CAMERA_FOV, this.width / this.height, CAMERA_NEAR, CAMERA_FAR);
      willRender := true;
    }

    /** `reset`: the current angles drop their whole turns and the target returns to 0. */
    method Reset()
      requires Valid()
      modifies cameraRotation, cameraRotationTo
      ensures cameraRotation[0] == TruncRem(old(cameraRotation[0]), PI_2)
      ensures cameraRotation[1] == TruncRem(old(cameraRotation[1]), PI_2)
      ensures cameraRotation[2] == old(cameraRotation[2])
      ensures cameraRotationTo[0] == 0.0 && cameraRotationTo[1] == 0.0
      ensures cameraRotationTo[2] == old(cameraRotationTo[2])
    {
      cameraRotation[0] := TruncRem(cameraRotation[0], PI_2);
      cameraRotation[1] := TruncRem(cameraRotation[1], PI_2);
      cameraRotationTo[0] := 0.0;
      cameraRotationTo[1] := 0.0;
    }

    /**
      * `calibrate`: the device takes the current readings as its zero, and a
      * render is scheduled although the quaternion is not recomputed yet.
      */
    method Calibrate()
      requires Valid() && Wired() && deviceOrientation.Valid()
      modifies this, deviceOrientation
      ensures Valid() && Wired() && deviceOrientation.Valid() && willRender
      ensures destroyed == old(destroyed) && width == old(width) && height == old(height)
      ensures dampingFactor == old(dampingFactor) && lastElapsedTime == old(lastElapsedTime)
      ensures deviceOrientation.offsetAlpha == -deviceOrientation.alpha
      ensures deviceOrientation.offsetBeta == -deviceOrientation.beta
      ensures deviceOrientation.offsetGamma == -deviceOrientation.gamma
      ensures deviceOrientation.alpha == old(deviceOrientation.alpha) && deviceOrientation.beta == old(deviceOrientation.beta)
      ensures deviceOrientation.gamma == old(deviceOrientation.gamma)
      ensures deviceOrientation.screenOrientation == old(deviceOrientation.screenOrientation)
      ensures unchanged(deviceOrientation.quaternion.arr)
    {
      deviceOrientation.Calibrate();
      willRender := true;
    }

    /**
      * The window's `deviceorientation` event: while the viewer is live it
      * reaches the device object, which recomputes its quaternion and
      * dispatches 'updated', and the viewer's listener schedules a render;
      * once destroyed nothing listens and nothing changes.
      */
    method OnDeviceOrientationChange(eventAlpha: Option<real>, eventBeta: Option<real>, eventGamma: Option<real>)
      requires Valid() && Wired() && deviceOrientation.Valid()
      modifies this, deviceOrientation, deviceOrientation.quaternion.arr, deviceOrientation.q0.arr
      ensures Valid() && Wired() && deviceOrientation.Valid()
      ensures willRender == (old(willRender) || !destroyed)
      ensures destroyed == old(destroyed) && width == old(width) && height == old(height)
      ensures dampingFactor == old(dampingFactor) && lastElapsedTime == old(lastElapsedTime)
      ensures !destroyed ==> deviceOrientation.alpha == SensorAngle(eventAlpha, 0.0)
      ensures !destroyed ==> deviceOrientation.beta == SensorAngle(eventBeta, 90.0)
      ensures !destroyed ==> deviceOrientation.gamma == SensorAngle(eventGamma, 0.0)
      ensures deviceOrientation.offsetAlpha == old(deviceOrientation.offsetAlpha)
      ensures deviceOrientation.offsetBeta == old(deviceOrientation.offsetBeta)
      ensures deviceOrientation.offsetGamma == old(deviceOrientation.offsetGamma)
      ensures deviceOrientation.screenOrientation == old(deviceOrientation.screenOrientation)
      ensures !destroyed ==> deviceOrientation.quaternion.Value() == deviceOrientation.Expected()
      ensures destroyed ==> unchanged(deviceOrientation) && unchanged(deviceOrientation.quaternion.arr)
    {
      var fired := deviceOrientation.OnDeviceOrientationChange(eventAlpha, eventBeta, eventGamma);
      if RENDER_ON_DEVICE in fired {
        willRender := true;
      }
    }

    /** The window's `orientationchange` event, forwarded likewise. */
    method OnScreenOrientationChange(orientation: Option<real>)
      requires Valid() && Wired() && deviceOrientation.Valid()
      modifies this, deviceOrientation, deviceOrientation.quaternion.arr, deviceOrientation.q0.arr
      ensures Valid() && Wired() && deviceOrientation.Valid()
      ensures willRender == (old(willRender) || !destroyed)
      ensures destroyed == old(destroyed) && width == old(width) && height == old(height)
      ensures dampingFactor == old(dampingFactor) && lastElapsedTime == old(lastElapsedTime)
      ensures !destroyed ==> deviceOrientation.screenOrientation == ScreenAngle(orientation)
      ensures deviceOrientation.alpha == old(deviceOrientation.alpha)
      ensures deviceOrientation.beta == old(deviceOrientation.beta)
      ensures deviceOrientation.gamma == old(deviceOrientation.gamma)
      ensures deviceOrientation.offsetAlpha == old(deviceOrientation.offsetAlpha)
      ensures deviceOrientation.offsetBeta == old(deviceOrientation.offsetBeta)
      ensures deviceOrientation.offsetGamma == old(deviceOrientation.offsetGamma)
      ensures !destroyed ==> deviceOrientation.quaternion.Value() == deviceOrientation.Expected()
      ensures destroyed ==> unchanged(deviceOrientation) && unchanged(deviceOrientation.quaternion.arr)
    {
      var fired := deviceOrientation.OnScreenOrientationChange(orientation);
      if RENDER_ON_DEVICE in fired {
        willRender := true;
      }
    }

    /**
      * `destroy`: marks the viewer destroyed, drops any pending render,
      * removes every listener of the device object and then the device's
      * window listeners.
      */
    method Destroy()
      requires Valid() && Wired() && deviceOrientation.Valid()
      modifies this, deviceOrientation, deviceOrientation.dispatcher
      ensures Valid() && Wired() && deviceOrientation.Valid()
      ensures destroyed && !willRender
      ensures width == old(width) && height == old(height) && dampingFactor == old(dampingFactor)
      ensures lastElapsedTime == old(lastElapsedTime)
      ensures deviceOrientation.alpha == old(deviceOrientation.alpha)
      ensures deviceOrientation.beta == old(deviceOrientation.beta)
      ensures deviceOrientation.gamma == old(deviceOrientation.gamma)
      ensures deviceOrientation.offsetAlpha == old(deviceOrientation.offsetAlpha)
      ensures deviceOrientation.offsetBeta == old(deviceOrientation.offsetBeta)
      ensures deviceOrientation.offsetGamma == old(deviceOrientation.offsetGamma)
      ensures deviceOrientation.screenOrientation == old(deviceOrientation.screenOrientation)
    {
      destroyed := true;
      willRender := false;
      deviceOrientation.dispatcher.RemoveAllEventListeners("");
      deviceOrientation.Destroy();
    }

    /**
      * The mesh's `i`-th awaited image has loaded: the mesh keeps it (resized
      * to powers of two if need be), and its event schedules a render.
      */
    method OnTextureLoaded(i: nat, image: Picture, maxTextureSize: nat, freshId: nat)
      requires Valid() && i < |sphereMesh.pending| && image.kind == Image
      modifies this, sphereMesh
      ensures Valid()
      ensures willRender && sphereMesh.baseTexture == PowerOfTwoTexture(image, maxTextureSize, freshId)
      ensures sphereMesh.pending == old(sphereMesh.pending[..i] + sphereMesh.pending[i + 1..])
      ensures width == old(width) && height == old(height) && destroyed == old(destroyed)
      ensures dampingFactor == old(dampingFactor) && lastElapsedTime == old(lastElapsedTime)
    {
      var fired := sphereMesh.OnImageLoaded(i, image, maxTextureSize, freshId);
      if RENDER_ON_TEXTURE in fired {
        willRender := true;
      }
    }
  }
}
