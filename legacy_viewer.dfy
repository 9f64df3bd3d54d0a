/**
  * src/Renderer.ts: the older generation's controller, also compiled into
  * dist/spherical-image.js. It has no damping: a drag turns the displayed
  * rotation itself and schedules a render, and `render` clamps that rotation's
  * pitch in place before building the view.
  *
  * The document's pointer listeners become `Drag`, which takes the pixel
  * deltas; the animation frame of this generation only calls `render`, so it
  * is `Render` itself; the image load the sphere waits for becomes
  * `OnTextureLoaded`.
  */
module LegacyViewers {

  import opened Numerics
  import opened Events
  import opened Textures
  import opened Cameras
  import opened Meshes
  import opened LegacyMeshes
  import Matrices
  import LegacyMatrices

  /** The renderer's 'textureUpdated' listener, `() => this.willRender = true`. */
  const RENDER_ON_TEXTURE: Listener := 1

  /** Degrees of rotation per dragged pixel. */
  const DRAG_RATE: real := -0.1

  /** The sphere, created from the texture source, with the renderer's listener as its only listener. */
  method NewListenedObject(ghost m: MathLib, attributes: Attributes, source: TextureSource) returns (sphere: SphiricalObject)
    requires SphereAttributes(m, LEGACY_PHI_OFFSET, attributes)
    ensures fresh(sphere) && fresh(sphere.dispatcher) && sphere.dispatcher.Valid() && sphere.Valid()
    ensures sphere.dispatcher.listeners == map[TEXTURE_UPDATED := [RENDER_ON_TEXTURE]]
    ensures sphere.attributes == attributes
    ensures sphere.baseTexture == if TakesAtOnce(source) then source.picture else EMPTY_TEXTURE
    ensures sphere.pending == Awaited(source)
  {
    sphere := new SphiricalObject(m, attributes, source);
    sphere.dispatcher.AddEventListener(TEXTURE_UPDATED, RENDER_ON_TEXTURE);
    assert sphere.dispatcher.listeners == map[TEXTURE_UPDATED := [RENDER_ON_TEXTURE]];
  }

  class Renderer {

    const m: MathLib
    const width: real
    const height: real
    /** The displayed (pitch, yaw, roll); roll is never used. */
    const cameraRotation: array<real>
    const viewMatrix: LegacyMatrices.Matrix4
    const projectionMatrix: LegacyMatrices.Matrix4
    const sphiricalObject: SphiricalObject

    var willRender: bool

    ghost predicate Valid()
      reads this, sphiricalObject, sphiricalObject.dispatcher
    {
      && cameraRotation.Length == 3
      && viewMatrix.Valid() && projectionMatrix.Valid() && viewMatrix.arr != projectionMatrix.arr
      && sphiricalObject.dispatcher.Valid() && sphiricalObject.Valid()
      && sphiricalObject.dispatcher.listeners == map[TEXTURE_UPDATED := [RENDER_ON_TEXTURE]]
    }

    /**
      * Sets up the projection for the canvas size, the sphere and its
      * listener, with `willRender` set and the rotation at 0, and then runs
      * the first animation frame at once: it renders the initial view and
      * clears the flag.
      */
    constructor (m: MathLib, attributes: Attributes, source: TextureSource, width: real, height: real)
      requires m.tan(CAMERA_FOV * 0.5) != 0.0 && width != 0.0 && height != 0.0
      requires SphereAttributes(m, LEGACY_PHI_OFFSET, attributes)
      ensures Valid() && fresh(sphiricalObject) && fresh(sphiricalObject.dispatcher)
      ensures fresh(cameraRotation) && fresh(viewMatrix.arr) && fresh(projectionMatrix.arr)
      ensures this.m == m && this.width == width && this.height == height
      ensures Zero(cameraRotation)
      ensures projectionMatrix.Value() == Matrices.PerspectiveMat(m, CAMERA_FOV, width / height, CAMERA_NEAR, CAMERA_FAR)
      ensures sphiricalObject.attributes == attributes
      ensures sphiricalObject.baseTexture == if TakesAtOnce(source) then source.picture else EMPTY_TEXTURE
      ensures sphiricalObject.pending == Awaited(source)
      ensures !willRender && viewMatrix.Value() == Matrices.EulerXYZMat(m, 0.0, 0.0, 0.0)
    {
      this.m := m;
      this.width, this.height := width, height;
      willRender := true;
      var projection := NewLegacyProjection(m, width, height);
      projectionMatrix := projection;
      viewMatrix := new LegacyMatrices.Matrix4();
      var rotation := ZeroRotation();
      cameraRotation := rotation;
      var sphere := NewListenedObject(m, attributes, source);
      sphiricalObject := sphere;
      new;
      Render();
    }

    /**
      * A pointer move by (`deltaX`, `deltaY`) pixels turns the displayed
      * rotation directly and schedules a render.
      */
    method Drag(deltaX: real, deltaY: real)
      requires Valid()
      modifies this, cameraRotation
      ensures Valid() && willRender
      ensures cameraRotation[0] == old(cameraRotation[0]) + DragAngle(deltaY, DRAG_RATE)
      ensures cameraRotation[1] == old(cameraRotation[1]) + DragAngle(deltaX, DRAG_RATE)
      ensures cameraRotation[2] == old(cameraRotation[2])
    {
      cameraRotation[0] := cameraRotation[0] + DragAngle(deltaY, DRAG_RATE);
      cameraRotation[1] := cameraRotation[1] + DragAngle(deltaX, DRAG_RATE);
      willRender := true;
    }

    /**
      * `render`, also the whole animation frame: when scheduled, clamps the
      * displayed pitch in place, views from the clamped rotation and clears
      * the flag; otherwise nothing changes. A rendered pitch is always within
      * the limit.
      */
    method Render()
      requires Valid()
      modifies this, cameraRotation, viewMatrix.arr
      ensures Valid() && !willRender
      ensures old(willRender) ==> cameraRotation[0] == ClampPitch(old(cameraRotation[0]))
      ensures old(willRender) ==> -PITCH_LIMIT <= cameraRotation[0] <= PITCH_LIMIT
      ensures old(willRender) ==> viewMatrix.Value() == Matrices.EulerXYZMat(m, cameraRotation[0], cameraRotation[1], 0.0)
      ensures !old(willRender) ==> unchanged(cameraRotation) && unchanged(viewMatrix.arr)
      ensures cameraRotation[1] == old(cameraRotation[1]) && cameraRotation[2] == old(cameraRotation[2])
    {
      if !willRender {
        return;
      }
      cameraRotation[0] := Min(cameraRotation[0], PITCH_LIMIT);
      cameraRotation[0] := Max(cameraRotation[0], -PITCH_LIMIT);
      var _ := viewMatrix.MakeRotationFromEulerXYZ(m, cameraRotation[0], cameraRotation[1], 0.0);
      willRender := false;
    }

    /** The sphere's `i`-th awaited image has loaded: the sphere takes it, and its event schedules a render. */
    method OnTextureLoaded(i: nat, image: Picture)
      requires Valid() && i < |sphiricalObject.pending| && image.kind == Image
      modifies this, sphiricalObject
      ensures Valid() && willRender
      ensures sphiricalObject.baseTexture == image
      ensures sphiricalObject.pending == old(sphiricalObject.pending[..i] + sphiricalObject.pending[i + 1..])
    {
      var fired := sphiricalObject.OnImageLoaded(i, image);
      if RENDER_ON_TEXTURE in fired {
        willRender := true;
      }
    }
  }
}
