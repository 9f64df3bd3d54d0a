/**
  * src/SphiricalObject.ts: the older generation's sphere. It builds the same
  * grid as src/SphereMesh.ts but from longitude 0, keeps its `attributes`
  * record and its base texture in public fields, and has no model matrix.
  * The compiled older bundle (dist/spherical-image.js) holds the same class.
  */
module LegacyMeshes {

  import opened Events
  import opened Textures
  import opened Numerics
  import opened Meshes

  /** The grid of this generation starts at longitude 0: `phi = longNumber * 2 * PI / LONGITUDE_BANDS`. */
  const LEGACY_PHI_OFFSET: real := 0.0

  class SphiricalObject {

    const dispatcher: EventDispatcher
    /** The record over the module-level buffers, a public field. */
    var attributes: Attributes
    var baseTexture: Picture
    /** The URLs whose image is still loading, in the order they were given. */
    var pending: seq<string>
    /** The platform `Math` the module-level buffers were built with. */
    ghost const math: MathLib

    /** The `attributes` field holds the record over the module-level buffers of a grid from longitude 0. */
    ghost predicate Valid()
      reads this
    {
      SphereAttributes(math, LEGACY_PHI_OFFSET, attributes)
    }

    /**
      * Takes the module-level buffers' record and starts from the empty
      * 1 × 1 canvas, then takes the texture source; no one listens yet.
      */
    constructor (ghost m: MathLib, attributes: Attributes, source: TextureSource)
      requires SphereAttributes(m, LEGACY_PHI_OFFSET, attributes)
      ensures Valid() && math == m
      ensures fresh(dispatcher) && dispatcher.Valid() && dispatcher.listeners == map[]
      ensures this.attributes == attributes
      ensures baseTexture == if TakesAtOnce(source) then source.picture else EMPTY_TEXTURE
      ensures pending == Awaited(source)
    {
      dispatcher := new EventDispatcher();
      this.attributes := attributes;
      math := m;
      baseTexture := EMPTY_TEXTURE;
      pending := [];
      new;
      var _ := UpdateTexture(source);
    }

    /**
      * `updateTexture`: a canvas is taken and announced at once, a URL starts
      * a load, and any other element is ignored.
      */
    method UpdateTexture(source: TextureSource) returns (fired: seq<Listener>)
      requires Valid()
      modifies this
      ensures Valid() && unchanged(dispatcher) && attributes == old(attributes)
      ensures TakesAtOnce(source) ==> baseTexture == source.picture
      ensures TakesAtOnce(source) ==> fired == ListenersOf(dispatcher.listeners, TEXTURE_UPDATED)
      ensures !TakesAtOnce(source) ==> baseTexture == old(baseTexture) && fired == []
      ensures pending == old(pending) + Awaited(source)
    {
      fired := [];
      match source
      case Url(url) =>
        pending := pending + [url];
      case Element(p) =>
        if p.kind == Canvas {
          baseTexture := p;
          var event := new DispatcherEvent(TEXTURE_UPDATED);
          fired := dispatcher.DispatchEvent(event);
        }
    }

    /** The `load` listener of the `i`-th awaited image; it removes itself. */
    method OnImageLoaded(i: nat, image: Picture) returns (fired: seq<Listener>)
      requires i < |pending| && image.kind == Image
      requires Valid()
      modifies this
      ensures Valid() && unchanged(dispatcher) && attributes == old(attributes)
      ensures baseTexture == image
      ensures pending == old(pending[..i] + pending[i + 1..])
      ensures fired == ListenersOf(dispatcher.listeners, TEXTURE_UPDATED)
    {
      baseTexture := image;
      var event := new DispatcherEvent(TEXTURE_UPDATED);
      fired := dispatcher.DispatchEvent(event);
      pending := pending[..i] + pending[i + 1..];
    }
  }
}
