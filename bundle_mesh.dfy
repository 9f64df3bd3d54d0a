/**
  * The `SphereMesh` of dist/spherical-image.module.js. Against src/SphereMesh.ts
  * it differs in three ways: its model matrix is the newer matrix class
  * (src/math/Matrix4.ts), `rotateTo` defaults omitted angles to 0, and every
  * texture it takes goes through the power-of-two policy of Textures. The
  * GPU's `maxTextureSize` (from the module-level `webglStats` probe) is a
  * parameter, and so is the element a resized copy becomes.
  */
module BundleMeshes {

  import opened Numerics
  import opened Wrappers
  import opened Events
  import opened Textures
  import opened Meshes
  import Matrices

  /**
    * An omitted angle: `if (phi === void 0) { phi = 0; }`. It differs from
    * `Cameras.OrZero` (`v || 0`) only in that a NaN angle stays NaN. The
    * model does not represent NaN, so the two agree on every modelled input;
    * both are kept because they stand for two different tests in the code.
    */
  function AngleOrZero(angle: Option<real>): (r: real)
    ensures angle.None? ==> r == 0.0
    ensures angle.Some? ==> r == angle.value
  {
    if angle.None? then 0.0 else angle.value
  }

  class SphereMesh {

    const dispatcher: EventDispatcher
    const modelMatrix: Matrices.Matrix4
    /** The shared `ATTRIBUTES` record, over a grid from longitude π/2 as in src/SphereMesh.ts. */
    const attributes: Attributes
    /** The platform `Math` the shared buffers were built with. */
    ghost const math: MathLib
    var baseTexture: Picture
    /** The URLs whose image is still loading, in the order they were given. */
    var pending: seq<string>

    ghost predicate Valid()
      reads this, dispatcher
    {
      modelMatrix.Valid() && dispatcher.Valid() && SphereAttributes(math, PHI_OFFSET, attributes)
    }

    /**
      * Starts from the empty canvas and a fresh identity matrix, applies
      * `rotateTo(offsetPhi, offsetTheta)`, then takes the texture source.
      */
    constructor (m: MathLib, attributes: Attributes, source: TextureSource, offsetPhi: Option<real>,
                 offsetTheta: Option<real>, maxTextureSize: nat, freshId: nat)
      requires SphereAttributes(m, PHI_OFFSET, attributes)
      ensures Valid() && math == m && fresh(dispatcher) && fresh(modelMatrix.arr)
      ensures dispatcher.listeners == map[]
      ensures this.attributes == attributes
      ensures modelMatrix.Value() == Matrices.EulerXYZMat(m, AngleOrZero(offsetPhi), AngleOrZero(offsetTheta), 0.0)
      ensures baseTexture == if TakesAtOnce(source) then PowerOfTwoTexture(source.picture, maxTextureSize, freshId)
                             else EMPTY_TEXTURE
      ensures pending == Awaited(source)
    {
      dispatcher := new EventDispatcher();
      modelMatrix := new Matrices.Matrix4();
      this.attributes := attributes;
      math := m;
      baseTexture := EMPTY_TEXTURE;
      pending := [];
      new;
      RotateTo(m, offsetPhi, offsetTheta);
      var _ := UpdateTexture(source, maxTextureSize, freshId);
    }

    /** `rotateTo`: the model matrix becomes the Euler-XYZ rotation (phi, theta, 0), omitted angles 0. */
    method RotateTo(m: MathLib, phi: Option<real>, theta: Option<real>)
      requires modelMatrix.Valid()
      modifies modelMatrix.arr
      ensures modelMatrix.Valid()
      ensures modelMatrix.Value() == Matrices.EulerXYZMat(m, AngleOrZero(phi), AngleOrZero(theta), 0.0)
    {
      var p := if phi.None? then 0.0 else phi.value;
      var t := if theta.None? then 0.0 else theta.value;
      var _ := modelMatrix.MakeRotationFromEulerXYZ(m, p, t, 0.0);
    }

    /**
      * `updateTexture`: a canvas is taken at once, resized first unless both
      * its sides are powers of two, and announced; a URL starts a load; any
      * other element is ignored.
      */
    method UpdateTexture(source: TextureSource, maxTextureSize: nat, freshId: nat) returns (fired: seq<Listener>)
      modifies this
      ensures unchanged(dispatcher)
      ensures TakesAtOnce(source) ==> baseTexture == PowerOfTwoTexture(source.picture, maxTextureSize, freshId)
      ensures TakesAtOnce(source) ==> fired == ListenersOf(dispatcher.listeners, TEXTURE_UPDATED)
      ensures !TakesAtOnce(source) ==> baseTexture == old(baseTexture) && fired == []
      ensures pending == old(pending) + Awaited(source)
    {
      fired := [];
      match source
      case Url(url) =>
        pending := pending + [url];
      case Element(p) =>
        if p.kind == Canvas {
          baseTexture := if IsPowerOfTwoImage(p) then p else ResizeImage(p, maxTextureSize, freshId);
          var event := new DispatcherEvent(TEXTURE_UPDATED);
          fired := dispatcher.DispatchEvent(event);
        }
    }

    /**
      * The `load` listener of the `i`-th awaited image: the image, resized
      * unless both sides are powers of two, becomes the base texture and is
      * announced; the listener removes itself.
      */
    method OnImageLoaded(i: nat, image: Picture, maxTextureSize: nat, freshId: nat) returns (fired: seq<Listener>)
      requires i < |pending| && image.kind == Image
      modifies this
      ensures unchanged(dispatcher)
      ensures baseTexture == PowerOfTwoTexture(image, maxTextureSize, freshId)
      ensures pending == old(pending[..i] + pending[i + 1..])
      ensures fired == ListenersOf(dispatcher.listeners, TEXTURE_UPDATED)
    {
      baseTexture := if IsPowerOfTwoImage(image) then image else ResizeImage(image, maxTextureSize, freshId);
      var event := new DispatcherEvent(TEXTURE_UPDATED);
      fired := dispatcher.DispatchEvent(event);
      pending := pending[..i] + pending[i + 1..];
    }
  }
}
