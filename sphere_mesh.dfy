/**
  * src/SphereMesh.ts: the textured sphere the viewer draws. The geometry is
  * built once (see SphereGeometry) and shared by every mesh through the
  * `ATTRIBUTES` record; each mesh owns a model matrix of the older matrix
  * class (src/Matrix4.ts, imported as 'Matrix4') and a base texture.
  *
  * Loading an image from a URL finishes later, in the image's `load`
  * listener. The model keeps the URLs whose load is awaited in `pending`, and
  * the load itself is the method `OnImageLoaded`, which takes the loaded
  * picture as an argument.
  */
module Meshes {

  import opened Numerics
  import opened Events
  import opened Textures
  import opened SphereGeometry
  import Matrices
  import LegacyMatrices

  /** The event a mesh dispatches whenever its base texture changes. */
  const TEXTURE_UPDATED: string := "textureUpdated"

  /** One vertex attribute as WebGL is told about it. */
  datatype Attribute<T> = Attribute(buffer: seq<T>, itemSize: nat, numItems: real)

  datatype Attributes = Attributes(index: Attribute<nat>, position: Attribute<real>,
                                   normal: Attribute<real>, textureCoord: Attribute<real>)

  /**
    * The `ATTRIBUTES` literal over the four buffers: `numItems` is the index
    * count for the index buffer and `length / 3` for the other three, the
    * texture coordinates included although they come in pairs.
    */
  function MeshAttributes(indices: seq<nat>, positions: seq<real>, normals: seq<real>, texcoords: seq<real>): Attributes {
    Attributes(Attribute(indices, 1, |indices| as real),
               Attribute(positions, 3, |positions| as real / 3.0),
               Attribute(normals, 3, |normals| as real / 3.0),
               Attribute(texcoords, 2, |texcoords| as real / 3.0))
  }

  /**
    * For the sphere's buffers the counts are 6144 indices and 1089 positions
    * and normals, but 726 texture coordinates: two thirds of the 1089 pairs
    * the buffer holds, because its `numItems` divides by 3 and not by its
    * `itemSize` of 2.
    */
  lemma MeshAttributeCounts(indices: seq<nat>, positions: seq<real>, normals: seq<real>, texcoords: seq<real>)
    requires |indices| == INDEX_COUNT
    requires |positions| == 3 * VERTEX_COUNT && |normals| == 3 * VERTEX_COUNT && |texcoords| == 2 * VERTEX_COUNT
    ensures var a := MeshAttributes(indices, positions, normals, texcoords);
            && a.index.numItems == 6144.0
            && a.position.numItems == 1089.0 && a.normal.numItems == 1089.0
            && a.textureCoord.numItems == 726.0
            && a.textureCoord.numItems * a.textureCoord.itemSize as real != |texcoords| as real
            && a.textureCoord.numItems < VERTEX_COUNT as real
  {
  }

  /** This file's grid starts at longitude π/2: `phi = longNumber * 2 * PI / LONGITUDE_BANDS + PI / 2`. */
  const PHI_OFFSET: real := PI_HALF

  /**
    * What the module-level buffers and their `ATTRIBUTES` record hold, for a
    * grid that starts at longitude `phiOffset`: the record is the `ATTRIBUTES`
    * literal over the buffers, with its counts; every index names a vertex
    * (and so fits the `Uint16Array` it is copied into); every cell has its two
    * triangles; every vertex has its normal, position and texture coordinates,
    * and every texture coordinate lies in [0, 1].
    */
  ghost predicate SphereAttributes(m: MathLib, phiOffset: real, a: Attributes) {
    && a == MeshAttributes(a.index.buffer, a.position.buffer, a.normal.buffer, a.textureCoord.buffer)
    && a.index.numItems == INDEX_COUNT as real && a.position.numItems == VERTEX_COUNT as real
    && a.normal.numItems == VERTEX_COUNT as real && a.textureCoord.numItems == 726.0
    && (forall i :: 0 <= i < |a.index.buffer| ==> a.index.buffer[i] < VERTEX_COUNT < 65536)
    && (forall lat: nat, long: nat :: lat < LATITUDE_BANDS && long < LONGITUDE_BANDS ==>
          Cell(lat, long) + 6 <= |a.index.buffer| &&
          a.index.buffer[Cell(lat, long) .. Cell(lat, long) + 6] == Quad(lat, long))
    && VerticesFilled(m, phiOffset, a.position.buffer, a.normal.buffer, a.textureCoord.buffer, LATITUDE_BANDS + 1, 0)
    && (forall i :: 0 <= i < |a.textureCoord.buffer| ==> 0.0 <= a.textureCoord.buffer[i] <= 1.0)
  }

  /**
    * Module load: the vertex and index loops fill the buffers, and
    * `ATTRIBUTES` is built over them.
    */
  method BuildAttributes(m: MathLib, phiOffset: real) returns (a: Attributes)
    ensures SphereAttributes(m, phiOffset, a)
  {
    var positions, normals, texcoords := BuildVertices(m, phiOffset);
    var indices := BuildIndices();
    MeshAttributeCounts(indices, positions, normals, texcoords);
    a := MeshAttributes(indices, positions, normals, texcoords);
  }

  /** Whether `updateTexture` takes the source at once: only a canvas element is taken. */
  predicate TakesAtOnce(source: TextureSource) {
    source.Element? && source.picture.kind == Canvas
  }

  /** The URL a source leaves waiting for its image: one for a string, none otherwise. */
  function Awaited(source: TextureSource): (r: seq<string>)
    ensures source.Url? ==> r == [source.url]
    ensures source.Element? ==> r == []
  {
    if source.Url? then [source.url] else []
  }

  class SphereMesh {

    const dispatcher: EventDispatcher
    const modelMatrix: LegacyMatrices.Matrix4
    /** The shared `ATTRIBUTES` record, which the `attributes` getter returns. */
    const attributes: Attributes
    /** The platform `Math` the shared buffers were built with. */
    ghost const math: MathLib
    /** The read-only properties the constructor defines. */
    const initialRotationPhi: real
    const initialRotationTheta: real
    var baseTexture: Picture
    /** The URLs whose image is still loading, in the order they were given. */
    var pending: seq<string>

    ghost predicate Valid()
      reads this, dispatcher
    {
      modelMatrix.Valid() && dispatcher.Valid() && SphereAttributes(math, PHI_OFFSET, attributes)
    }

    /**
      * Starts from the empty 1 × 1 canvas and the rotation
      * `makeRotationFromEulerXYZ(phi, theta, 0)`, then takes the texture
      * source. No one listens yet, so a canvas source notifies nobody.
      */
    constructor (m: MathLib, attributes: Attributes, source: TextureSource, phi: real, theta: real)
      requires SphereAttributes(m, PHI_OFFSET, attributes)
      ensures Valid() && math == m && fresh(dispatcher) && fresh(modelMatrix.arr)
      ensures dispatcher.listeners == map[]
      ensures this.attributes == attributes
      ensures initialRotationPhi == phi && initialRotationTheta == theta
      ensures modelMatrix.Value() == Matrices.EulerXYZMat(m, phi, theta, 0.0)
      ensures baseTexture == if TakesAtOnce(source) then source.picture else EMPTY_TEXTURE
      ensures pending == Awaited(source)
    {
      dispatcher := new EventDispatcher();
      modelMatrix := new LegacyMatrices.Matrix4();
      this.attributes := attributes;
      math := m;
      initialRotationPhi, initialRotationTheta := phi, theta;
      baseTexture := EMPTY_TEXTURE;
      pending := [];
      new;
      var _ := modelMatrix.MakeRotationFromEulerXYZ(m, phi, theta, 0.0);
      var _ := UpdateTexture(source);
    }

    /** `rotate`: the model matrix becomes the Euler-XYZ rotation (phi, theta, 0). */
    method Rotate(m: MathLib, phi: real, theta: real)
      requires Valid()
      modifies modelMatrix.arr
      ensures Valid()
      ensures modelMatrix.Value() == Matrices.EulerXYZMat(m, phi, theta, 0.0)
    {
      var _ := modelMatrix.MakeRotationFromEulerXYZ(m, phi, theta, 0.0);
    }

    /**
      * `updateTexture`: a canvas becomes the base texture and 'textureUpdated'
      * is dispatched at once; a URL starts a load and changes nothing yet;
      * any other element is ignored. Returns the listeners called.
      */
    method UpdateTexture(source: TextureSource) returns (fired: seq<Listener>)
      modifies this
      ensures unchanged(dispatcher)
      ensures TakesAtOnce(source) ==> baseTexture == source.picture
      ensures TakesAtOnce(source) ==> fired == ListenersOf(dispatcher.listeners, TEXTURE_UPDATED)
      ensures !TakesAtOnce(source) ==> baseTexture == old(baseTexture) && fired == []
      ensures pending == old(pending) + Awaited(source)
    {
      fired := [];
      match source
      case Url(url) =>
        pending := pending + [url];
      case Element(p) =>
        if p.kind == Canvas {
          baseTexture := p;
          var event := new DispatcherEvent(TEXTURE_UPDATED);
          fired := dispatcher.DispatchEvent(event);
        }
    }

    /**
      * The `load` listener of the `i`-th awaited image: the loaded image
      * becomes the base texture, 'textureUpdated' is dispatched, and the
      * listener removes itself, so each load is taken once.
      */
    method OnImageLoaded(i: nat, image: Picture) returns (fired: seq<Listener>)
      requires i < |pending| && image.kind == Image
      modifies this
      ensures unchanged(dispatcher)
      ensures baseTexture == image
      ensures pending == old(pending[..i] + pending[i + 1..])
      ensures fired == ListenersOf(dispatcher.listeners, TEXTURE_UPDATED)
    {
      baseTexture := image;
      var event := new DispatcherEvent(TEXTURE_UPDATED);
      fired := dispatcher.DispatchEvent(event);
      pending := pending[..i] + pending[i + 1..];
    }
  }
}
