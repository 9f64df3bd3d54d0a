/**
  * src/SphericalImage.ts: the camera controller and render scheduler of the
  * current source generation.
  *
  * Dragging moves a target rotation (`_cameraRotationTo`); every animation
  * frame eases the current rotation (`_cameraRotation`) toward it and then
  * renders, but only when the `willRender` flag is set. Rendering clamps the
  * target pitch, rebuilds the view matrix from the current rotation and
  * clears the flag.
  *
  * The pointer listeners become `Drag`, which takes the pixel deltas; the
  * animation frame becomes `Tick`, which takes the frame's timestamp; the
  * image load the mesh waits for becomes `OnTextureLoaded`. Both rotations
  * are the source's 3-element `Float32Array`s, updated in place.
  */
module Viewers {

  import opened Numerics
  import opened Wrappers
  import opened Events
  import opened Textures
  import opened Cameras
  import opened Meshes
  import Matrices
  import LegacyMatrices

  /** The viewer's 'textureUpdated' listener, `() => this._willRender = true`. */
  const RENDER_ON_TEXTURE: Listener := 1

  /** Degrees of rotation per dragged pixel. */
  const DRAG_RATE: real := -0.1

  /** The damping's frame length: `exp(-dampingFactor * delta / 16)`. */
  const DAMPING_FRAME: real := 16.0

  /**
    * The viewer's mesh, created with the given rotation and texture source,
    * with the viewer's 'textureUpdated' listener as its only listener.
    */
  method NewListenedMesh(m: MathLib, attributes: Attributes, source: TextureSource, phi: real, theta: real)
    returns (mesh: SphereMesh)
    requires SphereAttributes(m, Meshes.PHI_OFFSET, attributes)
    ensures fresh(mesh) && fresh(mesh.dispatcher) && fresh(mesh.modelMatrix.arr) && mesh.Valid()
    ensures mesh.dispatcher.listeners == map[TEXTURE_UPDATED := [RENDER_ON_TEXTURE]]
    ensures mesh.modelMatrix.Value() == Matrices.EulerXYZMat(m, phi, theta, 0.0)
    ensures mesh.baseTexture == if TakesAtOnce(source) then source.picture else EMPTY_TEXTURE
    ensures mesh.pending == Awaited(source)
  {
    mesh := new SphereMesh(m, attributes, source, phi, theta);
    mesh.dispatcher.AddEventListener(TEXTURE_UPDATED, RENDER_ON_TEXTURE);
    assert mesh.dispatcher.listeners == map[TEXTURE_UPDATED := [RENDER_ON_TEXTURE]];
  }

  class SphericalImage {

    const m: MathLib
    /** Current (pitch, yaw, roll); roll is never used. */
    const cameraRotation: array<real>
    /** Target (pitch, yaw, roll). */
    const cameraRotationTo: array<real>
    const viewMatrix: LegacyMatrices.Matrix4
    const projectionMatrix: LegacyMatrices.Matrix4
    const sphereMesh: SphereMesh

    var width: real
    var height: real
    var willRender: bool
    /** `_destoried`. */
    var destroyed: bool
    var dampingFactor: real
    /** The timestamp of the previous frame, a variable of the constructor's closure. */
    var lastElapsedTime: real

    ghost predicate Valid()
      reads this, sphereMesh, sphereMesh.dispatcher
    {
      && cameraRotation.Length == 3 && cameraRotationTo.Length == 3 && cameraRotation != cameraRotationTo
      && viewMatrix.Valid() && projectionMatrix.Valid() && sphereMesh.Valid()
      && viewMatrix.arr != projectionMatrix.arr
      && viewMatrix.arr != sphereMesh.modelMatrix.arr && projectionMatrix.arr != sphereMesh.modelMatrix.arr
      && sphereMesh.dispatcher.listeners == map[TEXTURE_UPDATED := [RENDER_ON_TEXTURE]]
    }

    /**
      * Sets up the projection for the canvas size and the mesh with the
      * default rotation (`options.defaultRotationPhi || 0`, and likewise for
      * theta), listens for texture updates, and runs the first animation
      * frame at once: with nothing to ease, that frame renders the initial
      * view and clears the flag.
      */
    constructor (m: MathLib, attributes: Attributes, source: TextureSource, width: real, height: real,
                 defaultRotationPhi: Option<real>, defaultRotationTheta: Option<real>)
      requires m.tan(CAMERA_FOV * 0.5) != 0.0 && width != 0.0 && height != 0.0
      requires SphereAttributes(m, Meshes.PHI_OFFSET, attributes)
      ensures Valid() && fresh(sphereMesh) && fresh(sphereMesh.dispatcher)
      ensures fresh(cameraRotation) && fresh(cameraRotationTo) && fresh(viewMatrix.arr) && fresh(projectionMatrix.arr)
      ensures this.m == m && this.width == width && this.height == height
      ensures dampingFactor == 0.1 && !destroyed && lastElapsedTime == 0.0
      ensures Zero(cameraRotation) && Zero(cameraRotationTo)
      ensures projectionMatrix.Value() == Matrices.PerspectiveMat(m, CAMERA_FOV, width / height, CAMERA_NEAR, CAMERA_FAR)
      ensures sphereMesh.modelMatrix.Value() ==
              Matrices.EulerXYZMat(m, OrZero(defaultRotationPhi), OrZero(defaultRotationTheta), 0.0)
      ensures sphereMesh.baseTexture == if TakesAtOnce(source) then source.picture else EMPTY_TEXTURE
      ensures sphereMesh.pending == Awaited(source)
      ensures !willRender && viewMatrix.Value() == Matrices.EulerXYZMat(m, 0.0, 0.0, 0.0)
    {
      this.m := m;
      this.width, this.height := width, height;
      willRender := true;
      destroyed := false;
      dampingFactor := 0.1;
      viewMatrix := new LegacyMatrices.Matrix4();
      var current := ZeroRotation();
      var target := ZeroRotation();
      var projection := NewLegacyProjection(m, width, height);
      cameraRotation, cameraRotationTo, projectionMatrix := current, target, projection;
      var mesh := NewListenedMesh(m, attributes, source, OrZero(defaultRotationPhi), OrZero(defaultRotationTheta));
      sphereMesh := mesh;
      lastElapsedTime := 0.0;
      new;
      FirstFrame();
    }

    /** The constructor's immediate `tick(0)`, from the initial state. */
    method FirstFrame()
      requires Valid() && willRender && !destroyed && lastElapsedTime == 0.0
      requires Zero(cameraRotation) && Zero(cameraRotationTo)
      modifies this, cameraRotation, cameraRotationTo, viewMatrix.arr
      ensures Valid() && !willRender && !destroyed && lastElapsedTime == 0.0
      ensures width == old(width) && height == old(height) && dampingFactor == old(dampingFactor)
      ensures Zero(cameraRotation) && Zero(cameraRotationTo)
      ensures viewMatrix.Value() == Matrices.EulerXYZMat(m, 0.0, 0.0, 0.0)
    {
      assert !Unsettled(cameraRotationTo[0] - cameraRotation[0], cameraRotationTo[1] - cameraRotation[1]);
      Tick(0.0);
    }

    /** A pointer move by (`deltaX`, `deltaY`) pixels turns the target; nothing is scheduled. */
    method Drag(deltaX: real, deltaY: real)
      requires Valid()
      modifies cameraRotationTo
      ensures cameraRotationTo[0] == old(cameraRotationTo[0]) + DragAngle(deltaY, DRAG_RATE)
      ensures cameraRotationTo[1] == old(cameraRotationTo[1]) + DragAngle(deltaX, DRAG_RATE)
      ensures cameraRotationTo[2] == old(cameraRotationTo[2])
    {
      cameraRotationTo[0] := cameraRotationTo[0] + DragAngle(deltaY, DRAG_RATE);
      cameraRotationTo[1] := cameraRotationTo[1] + DragAngle(deltaX, DRAG_RATE);
    }

    /**
      * `updateCameraRotation(delta)`: unless both axes are within 1e-5 of
      * their targets, both ease toward them by the frame's share and a render
      * is scheduled; otherwise nothing changes.
      */
    method UpdateCameraRotation(delta: real)
      requires Valid()
      modifies this, cameraRotation
      ensures Valid()
      ensures width == old(width) && height == old(height) && destroyed == old(destroyed)
      ensures dampingFactor == old(dampingFactor) && lastElapsedTime == old(lastElapsedTime)
      ensures var r := LerpRatio(m, dampingFactor, delta, DAMPING_FRAME);
              Unsettled(old(cameraRotationTo[0] - cameraRotation[0]), old(cameraRotationTo[1] - cameraRotation[1])) ==>
                && cameraRotation[0] == Approach(old(cameraRotation[0]), cameraRotationTo[0], r)
                && cameraRotation[1] == Approach(old(cameraRotation[1]), cameraRotationTo[1], r)
                && willRender
      ensures !Unsettled(old(cameraRotationTo[0] - cameraRotation[0]), old(cameraRotationTo[1] - cameraRotation[1])) ==>
                cameraRotation[0] == old(cameraRotation[0]) && cameraRotation[1] == old(cameraRotation[1])
                && willRender == old(willRender)
      ensures cameraRotation[2] == old(cameraRotation[2])
    {
      var lerpRatio := LerpRatio(m, dampingFactor, delta, DAMPING_FRAME);
      var deltaX := cameraRotationTo[0] - cameraRotation[0];
      var deltaY := cameraRotationTo[1] - cameraRotation[1];
      if Unsettled(deltaX, deltaY) {
        cameraRotation[0] := Approach(cameraRotation[0], cameraRotationTo[0], lerpRatio);
        cameraRotation[1] := Approach(cameraRotation[1], cameraRotationTo[1], lerpRatio);
        willRender := true;
      }
    }

    /**
      * `_render`: when scheduled, clamps the target pitch (the current pitch
      * is left as it is), views from the current rotation and clears the
      * flag; otherwise nothing changes.
      */
    method Render()
      requires Valid()
      modifies this, cameraRotationTo, viewMatrix.arr
      ensures Valid()
      ensures width == old(width) && height == old(height) && destroyed == old(destroyed)
      ensures dampingFactor == old(dampingFactor) && lastElapsedTime == old(lastElapsedTime)
      ensures !willRender
      ensures old(willRender) ==> cameraRotationTo[0] == ClampPitch(old(cameraRotationTo[0]))
      ensures old(willRender) ==> viewMatrix.Value() == Matrices.EulerXYZMat(m, cameraRotation[0], cameraRotation[1], 0.0)
      ensures !old(willRender) ==> unchanged(cameraRotationTo) && unchanged(viewMatrix.arr)
      ensures cameraRotationTo[1] == old(cameraRotationTo[1]) && cameraRotationTo[2] == old(cameraRotationTo[2])
    {
      if !willRender {
        return;
      }
      cameraRotationTo[0] := Min(cameraRotationTo[0], PITCH_LIMIT);
      cameraRotationTo[0] := Max(cameraRotationTo[0], -PITCH_LIMIT);
      var _ := viewMatrix.MakeRotationFromEulerXYZ(m, cameraRotation[0], cameraRotation[1], 0.0);
      willRender := false;
    }

    /**
      * One animation frame at timestamp `elapsed`: nothing once destroyed;
      * otherwise the damping step over the time since the previous frame,
      * then `_render`. Afterwards no render is pending.
      */
    method Tick(elapsed: real)
      requires Valid()
      modifies this, cameraRotation, cameraRotationTo, viewMatrix.arr
      ensures Valid()
      ensures width == old(width) && height == old(height) && destroyed == old(destroyed)
      ensures dampingFactor == old(dampingFactor)
      ensures old(destroyed) ==> unchanged(this) && unchanged(cameraRotation) && unchanged(cameraRotationTo)
      ensures old(destroyed) ==> unchanged(viewMatrix.arr)
      ensures !old(destroyed) ==> !willRender && lastElapsedTime == elapsed
      ensures cameraRotation[2] == old(cameraRotation[2]) && cameraRotationTo[2] == old(cameraRotationTo[2])
      ensures !old(destroyed) ==>
                var r := LerpRatio(m, dampingFactor, elapsed - old(lastElapsedTime), DAMPING_FRAME);
                var moved := Unsettled(old(cameraRotationTo[0] - cameraRotation[0]), old(cameraRotationTo[1] - cameraRotation[1]));
                var rendered := moved || old(willRender);
                && cameraRotation[0] == (if moved then Approach(old(cameraRotation[0]), old(cameraRotationTo[0]), r) else old(cameraRotation[0]))
                && cameraRotation[1] == (if moved then Approach(old(cameraRotation[1]), old(cameraRotationTo[1]), r) else old(cameraRotation[1]))
                && cameraRotationTo[0] == (if rendered then ClampPitch(old(cameraRotationTo[0])) else old(cameraRotationTo[0]))
                && cameraRotationTo[1] == old(cameraRotationTo[1])
                && (rendered ==> viewMatrix.Value() == Matrices.EulerXYZMat(m, cameraRotation[0], cameraRotation[1], 0.0))
                && (!rendered ==> unchanged(viewMatrix.arr))
    {
      if destroyed {
        return;
      }
      var delta := elapsed - lastElapsedTime;
      UpdateCameraRotation(delta);
      Render();
      lastElapsedTime := elapsed;
    }

    /** `setSize`: a new projection for the new aspect ratio, and a render is scheduled. */
    method SetSize(width: real, height: real)
      requires Valid() && m.tan(CAMERA_FOV * 0.5) != 0.0 && width != 0.0 && height != 0.0
      modifies this, projectionMatrix.arr
      ensures Valid()
      ensures this.width == width && this.height == height && willRender
      ensures destroyed == old(destroyed) && dampingFactor == old(dampingFactor) && lastElapsedTime == old(lastElapsedTime)
      ensures projectionMatrix.Value() == Matrices.PerspectiveMat(m, CAMERA_FOV, width / height, CAMERA_NEAR, CAMERA_FAR)
    {
      this.width, this.height := width, height;
      var _ := projectionMatrix.Perspective(m, CAMERA_FOV, this.width / this.height, CAMERA_NEAR, CAMERA_FAR);
      willRender := true;
    }

    /**
      * `reset`: the current angles drop their whole turns (keeping their
      * sign, so they stay in (-2π, 2π)) and the target returns to 0; no
      * render is scheduled.
      */
    method Reset()
      requires Valid()
      modifies cameraRotation, cameraRotationTo
      ensures cameraRotation[0] == TruncRem(old(cameraRotation[0]), PI_2)
      ensures cameraRotation[1] == TruncRem(old(cameraRotation[1]), PI_2)
      ensures cameraRotation[2] == old(cameraRotation[2])
      ensures cameraRotationTo[0] == 0.0 && cameraRotationTo[1] == 0.0
      ensures cameraRotationTo[2] == old(cameraRotationTo[2])
    {
      cameraRotation[0] := TruncRem(cameraRotation[0], PI_2);
      cameraRotation[1] := TruncRem(cameraRotation[1], PI_2);
      cameraRotationTo[0] := 0.0;
      cameraRotationTo[1] := 0.0;
    }

    /** `destory`: marks the viewer destroyed and drops any pending render. */
    method Destroy()
      requires Valid()
      modifies this
      ensures Valid()
      ensures destroyed && !willRender
      ensures width == old(width) && height == old(height) && dampingFactor == old(dampingFactor)
      ensures lastElapsedTime == old(lastElapsedTime)
    {
      destroyed := true;
      willRender := false;
    }

    /** The mesh's `i`-th awaited image has loaded: the mesh takes it, and its event schedules a render. */
    method OnTextureLoaded(i: nat, image: Picture)
      requires Valid() && i < |sphereMesh.pending| && image.kind == Image
      modifies this, sphereMesh
      ensures Valid()
      ensures willRender && sphereMesh.baseTexture == image
      ensures sphereMesh.pending == old(sphereMesh.pending[..i] + sphereMesh.pending[i + 1..])
      ensures width == old(width) && height == old(height) && destroyed == old(destroyed)
      ensures dampingFactor == old(dampingFactor) && lastElapsedTime == old(lastElapsedTime)
    {
      var fired := sphereMesh.OnImageLoaded(i, image);
      if RENDER_ON_TEXTURE in fired {
        willRender := true;
      }
    }
  }
}
