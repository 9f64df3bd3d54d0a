/**
  * The sphere geometry that src/SphereMesh.ts and src/SphiricalObject.ts build
  * once, at module load, with the same nested loops: a grid of 33 × 33
  * vertices over 32 latitude and 32 longitude bands of the unit sphere, and
  * two triangles per grid cell. The two files differ only in the longitude at
  * which the grid starts (SphereMesh adds π/2), which is the parameter
  * `phiOffset` here: `Meshes.PHI_OFFSET` for src/SphereMesh.ts and the bundle,
  * `LegacyMeshes.LEGACY_PHI_OFFSET` for src/SphiricalObject.ts.
  *
  * The arrays the loops `push` into are sequences that the loops extend.
  */
module SphereGeometry {

  import opened Numerics
  import opened Vectors

  const RADIUS: real := 1.0
  const LATITUDE_BANDS: nat := 32
  const LONGITUDE_BANDS: nat := 32
  /** Vertices per latitude row: one more than the bands, the seam is duplicated. */
  const ROW: nat := LONGITUDE_BANDS + 1
  const VERTEX_COUNT: nat := (LATITUDE_BANDS + 1) * ROW
  const INDEX_COUNT: nat := 6 * LATITUDE_BANDS * LONGITUDE_BANDS

  /** The position in the vertex arrays of the vertex of row `lat`, column `long`. */
  function VertexIndex(lat: nat, long: nat): nat {
    lat * ROW + long
  }

  /**
    * The six indices pushed for the cell at (`lat`, `long`): the triangles
    * (first, second, first + 1) and (second, second + 1, first + 1), where
    * `second` is the vertex one row below `first`.
    */
  function Quad(lat: nat, long: nat): (q: seq<nat>)
    ensures |q| == 6
  {
    var first := (lat * (LONGITUDE_BANDS + 1)) + long;
    var second := first + LONGITUDE_BANDS + 1;
    [first, second, first + 1, second, second + 1, first + 1]
  }

  /**
    * The two triangles of a cell use exactly its four corner vertices:
    * (lat, long), (lat + 1, long), (lat, long + 1) and (lat + 1, long + 1), and
    * for a cell of the grid these are vertices that exist.
    */
  lemma QuadCorners(lat: nat, long: nat)
    requires lat < LATITUDE_BANDS && long < LONGITUDE_BANDS
    ensures Quad(lat, long) == [VertexIndex(lat, long), VertexIndex(lat + 1, long), VertexIndex(lat, long + 1),
                                VertexIndex(lat + 1, long), VertexIndex(lat + 1, long + 1), VertexIndex(lat, long + 1)]
    ensures forall k :: 0 <= k < 6 ==> Quad(lat, long)[k] < VERTEX_COUNT
  {
  }

  /** Where the six indices of cell (`lat`, `long`) start in the index array. */
  function Cell(lat: nat, long: nat): nat {
    6 * (lat * LONGITUDE_BANDS + long)
  }

  /**
    * The index loops: for every cell, row by row, its six indices. The result
    * has 6 · 32 · 32 entries, each a valid vertex index (below 1089, so the
    * `Uint16Array` it is copied into holds it unchanged).
    */
  method BuildIndices() returns (indices: seq<nat>)
    ensures |indices| == INDEX_COUNT
    ensures forall i :: 0 <= i < |indices| ==> indices[i] < VERTEX_COUNT
    ensures forall lat: nat, long: nat :: lat < LATITUDE_BANDS && long < LONGITUDE_BANDS ==>
      indices[Cell(lat, long) .. Cell(lat, long) + 6] == Quad(lat, long)
  {
    indices := [];
    var latNumber := 0;
    while latNumber < LATITUDE_BANDS
      invariant 0 <= latNumber <= LATITUDE_BANDS
      invariant |indices| == Cell(latNumber, 0)
      invariant forall i :: 0 <= i < |indices| ==> indices[i] < VERTEX_COUNT
      invariant Filled(indices, latNumber, 0)
    {
      var longNumber := 0;
      while longNumber < LONGITUDE_BANDS
        invariant 0 <= longNumber <= LONGITUDE_BANDS
        invariant |indices| == Cell(latNumber, longNumber)
        invariant forall i :: 0 <= i < |indices| ==> indices[i] < VERTEX_COUNT
        invariant Filled(indices, latNumber, longNumber)
      {
        QuadCorners(latNumber, longNumber);
        FilledStep(indices, latNumber, longNumber);
        indices := indices + Quad(latNumber, longNumber);
        longNumber := longNumber + 1;
      }
      FilledRow(indices, latNumber);
      latNumber := latNumber + 1;
    }
  }

  /** The cells before (`latNumber`, `longNumber`) in loop order hold their six indices. */
  ghost predicate Filled(indices: seq<nat>, latNumber: nat, longNumber: nat) {
    forall lat: nat, long: nat :: (lat < latNumber && long < LONGITUDE_BANDS) || (lat == latNumber && long < longNumber) ==>
      Cell(lat, long) + 6 <= |indices| && indices[Cell(lat, long) .. Cell(lat, long) + 6] == Quad(lat, long)
  }

  /** One more inner iteration fills one more cell. */
  lemma FilledStep(indices: seq<nat>, latNumber: nat, longNumber: nat)
    requires longNumber < LONGITUDE_BANDS && |indices| == Cell(latNumber, longNumber)
    requires Filled(indices, latNumber, longNumber)
    ensures Filled(indices + Quad(latNumber, longNumber), latNumber, longNumber + 1)
  {
    var after := indices + Quad(latNumber, longNumber);
    forall lat: nat, long: nat | (lat < latNumber && long < LONGITUDE_BANDS) || (lat == latNumber && long < longNumber + 1)
      ensures Cell(lat, long) + 6 <= |after| && after[Cell(lat, long) .. Cell(lat, long) + 6] == Quad(lat, long)
    {
      if lat == latNumber && long == longNumber {
        assert after[|indices| .. |indices| + 6] == Quad(lat, long);
      } else {
        PrefixPosition(lat, long, latNumber, longNumber);
        AppendKeepsSlice(indices, Quad(latNumber, longNumber), Cell(lat, long), Cell(lat, long) + 6);
      }
    }
  }

  /** A finished row is the start of the next one. */
  lemma FilledRow(indices: seq<nat>, latNumber: nat)
    requires Filled(indices, latNumber, LONGITUDE_BANDS)
    ensures Filled(indices, latNumber + 1, 0)
  {
  }

  /** A cell visited before (`latNumber`, `longNumber`) lies wholly before it in the index array. */
  lemma PrefixPosition(lat: nat, long: nat, latNumber: nat, longNumber: nat)
    requires (lat < latNumber && long < LONGITUDE_BANDS) || (lat == latNumber && long < longNumber)
    ensures Cell(lat, long) + 6 <= Cell(latNumber, longNumber)
  {
    if lat < latNumber {
      assert lat * LONGITUDE_BANDS + LONGITUDE_BANDS <= latNumber * LONGITUDE_BANDS;
    }
  }

  /** Appending leaves every slice of the old prefix as it was. */
  lemma AppendKeepsSlice<T>(a: seq<T>, b: seq<T>, i: nat, j: nat)
    requires i <= j <= |a|
    ensures (a + b)[i .. j] == a[i .. j]
  {
  }

  /** The polar angle of latitude row `lat`, from the north pole (0) to the south pole (π). */
  function Theta(lat: nat): real {
    lat as real * PI / LATITUDE_BANDS as real
  }

  /** The azimuth of longitude column `long`, starting at `phiOffset`. */
  function Phi(long: nat, phiOffset: real): real {
    long as real * 2.0 * PI / LONGITUDE_BANDS as real + phiOffset
  }

  /** The point of the unit sphere with the given sines and cosines of its angles. */
  function SpherePoint(sinTheta: real, cosTheta: real, sinPhi: real, cosPhi: real): Vector3 {
    Vector3(cosPhi * sinTheta, cosTheta, sinPhi * sinTheta)
  }

  /** The normal of vertex (`lat`, `long`): the unit vector from the centre to it. */
  function Normal(m: MathLib, lat: nat, long: nat, phiOffset: real): Vector3 {
    SpherePoint(m.sin(Theta(lat)), m.cos(Theta(lat)), m.sin(Phi(long, phiOffset)), m.cos(Phi(long, phiOffset)))
  }

  /** The position of a vertex: its normal scaled by the radius. */
  function Position(m: MathLib, lat: nat, long: nat, phiOffset: real): Vector3 {
    var n := Normal(m, lat, long, phiOffset);
    Vector3(RADIUS * n.x, RADIUS * n.y, RADIUS * n.z)
  }

  /** The texture coordinate of vertex (`lat`, `long`): u runs along the longitude, v falls from 1 at the top. */
  function TexCoord(lat: nat, long: nat): (uv: seq<real>)
    ensures |uv| == 2
  {
    [long as real / LONGITUDE_BANDS as real, 1.0 - lat as real / LATITUDE_BANDS as real]
  }

  /** Every texture coordinate of the grid lies in [0, 1]. */
  lemma TexCoordInUnitSquare(lat: nat, long: nat)
    requires lat <= LATITUDE_BANDS && long <= LONGITUDE_BANDS
    ensures 0.0 <= TexCoord(lat, long)[0] <= 1.0 && 0.0 <= TexCoord(lat, long)[1] <= 1.0
  {
  }

  /** The radius is 1, so every vertex lies on the unit sphere and equals its normal. */
  lemma VertexOnUnitSphere(m: MathLib, lat: nat, long: nat, phiOffset: real)
    requires Lawful(m)
    ensures LengthSquared(Normal(m, lat, long, phiOffset)) == 1.0
    ensures Position(m, lat, long, phiOffset) == Normal(m, lat, long, phiOffset)
  {
    var st, ct := m.sin(Theta(lat)), m.cos(Theta(lat));
    var sp, cp := m.sin(Phi(long, phiOffset)), m.cos(Phi(long, phiOffset));
    assert st * st + ct * ct == 1.0;
    assert sp * sp + cp * cp == 1.0;
    SpherePointLength(st, ct, sp, cp);
  }

  lemma SpherePointLength(st: real, ct: real, sp: real, cp: real)
    requires st * st + ct * ct == 1.0 && sp * sp + cp * cp == 1.0
    ensures LengthSquared(SpherePoint(st, ct, sp, cp)) == 1.0
  {
    assert LengthSquared(SpherePoint(st, ct, sp, cp)) == (sp * sp + cp * cp) * (st * st) + ct * ct;
  }

  /** The vertices before (`latNumber`, `longNumber`) in loop order hold their data. */
  ghost predicate VerticesFilled(m: MathLib, phiOffset: real, positions: seq<real>, normals: seq<real>, texcoords: seq<real>,
                                 latNumber: nat, longNumber: nat) {
    forall lat: nat, long: nat :: (lat < latNumber && long <= LONGITUDE_BANDS) || (lat == latNumber && long < longNumber) ==>
      && 3 * VertexIndex(lat, long) + 3 <= |positions| && 3 * VertexIndex(lat, long) + 3 <= |normals|
      && 2 * VertexIndex(lat, long) + 2 <= |texcoords|
      && normals[3 * VertexIndex(lat, long) .. 3 * VertexIndex(lat, long) + 3] == Normal(m, lat, long, phiOffset).Extract()
      && positions[3 * VertexIndex(lat, long) .. 3 * VertexIndex(lat, long) + 3] == Position(m, lat, long, phiOffset).Extract()
      && texcoords[2 * VertexIndex(lat, long) .. 2 * VertexIndex(lat, long) + 2] == TexCoord(lat, long)
  }

  /**
    * The vertex loops: for every latitude row 0..32 and longitude column 0..32,
    * three normal components, two texture coordinates and three position
    * components, in that row-major order.
    */
  method BuildVertices(m: MathLib, phiOffset: real) returns (positions: seq<real>, normals: seq<real>, texcoords: seq<real>)
    ensures |positions| == 3 * VERTEX_COUNT && |normals| == 3 * VERTEX_COUNT && |texcoords| == 2 * VERTEX_COUNT
    ensures VerticesFilled(m, phiOffset, positions, normals, texcoords, LATITUDE_BANDS + 1, 0)
    ensures forall i :: 0 <= i < |texcoords| ==> 0.0 <= texcoords[i] <= 1.0
  {
    positions, normals, texcoords := [], [], [];
    var latNumber := 0;
    while latNumber <= LATITUDE_BANDS
      invariant 0 <= latNumber <= LATITUDE_BANDS + 1
      invariant |positions| == 3 * VertexIndex(latNumber, 0) && |normals| == 3 * VertexIndex(latNumber, 0)
      invariant |texcoords| == 2 * VertexIndex(latNumber, 0)
      invariant VerticesFilled(m, phiOffset, positions, normals, texcoords, latNumber, 0)
    {
      var theta := latNumber as real * PI / LATITUDE_BANDS as real;
      var sinTheta := m.sin(theta);
      var cosTheta := m.cos(theta);
      positions, normals, texcoords := PushRow(m, phiOffset, latNumber, sinTheta, cosTheta, positions, normals, texcoords);
      latNumber := latNumber + 1;
    }
    TexCoordsInUnitSquare(m, phiOffset, positions, normals, texcoords);
  }

  /** The inner vertex loop: the 33 vertices of latitude row `latNumber`. */
  method PushRow(m: MathLib, phiOffset: real, latNumber: nat, sinTheta: real, cosTheta: real,
                 positions0: seq<real>, normals0: seq<real>, texcoords0: seq<real>)
    returns (positions: seq<real>, normals: seq<real>, texcoords: seq<real>)
    requires sinTheta == m.sin(Theta(latNumber)) && cosTheta == m.cos(Theta(latNumber))
    requires |positions0| == 3 * VertexIndex(latNumber, 0) && |normals0| == 3 * VertexIndex(latNumber, 0)
    requires |texcoords0| == 2 * VertexIndex(latNumber, 0)
    requires VerticesFilled(m, phiOffset, positions0, normals0, texcoords0, latNumber, 0)
    ensures |positions| == 3 * VertexIndex(latNumber + 1, 0) && |normals| == 3 * VertexIndex(latNumber + 1, 0)
    ensures |texcoords| == 2 * VertexIndex(latNumber + 1, 0)
    ensures VerticesFilled(m, phiOffset, positions, normals, texcoords, latNumber + 1, 0)
  {
    positions, normals, texcoords := positions0, normals0, texcoords0;
    var longNumber := 0;
    while longNumber <= LONGITUDE_BANDS
      invariant 0 <= longNumber <= LONGITUDE_BANDS + 1
      invariant |positions| == 3 * VertexIndex(latNumber, longNumber) && |normals| == 3 * VertexIndex(latNumber, longNumber)
      invariant |texcoords| == 2 * VertexIndex(latNumber, longNumber)
      invariant VerticesFilled(m, phiOffset, positions, normals, texcoords, latNumber, longNumber)
    {
      var phi := longNumber as real * 2.0 * PI / LONGITUDE_BANDS as real + phiOffset;
      var sinPhi := m.sin(phi);
      var cosPhi := m.cos(phi);
      var n := SpherePoint(sinTheta, cosTheta, sinPhi, cosPhi);
      var u := longNumber as real / LONGITUDE_BANDS as real;
      var v := 1.0 - latNumber as real / LATITUDE_BANDS as real;
      assert n == Normal(m, latNumber, longNumber, phiOffset);
      assert [u, v] == TexCoord(latNumber, longNumber);
      VerticesStep(m, phiOffset, positions, normals, texcoords, latNumber, longNumber);
      normals := normals + [n.x, n.y, n.z];
      texcoords := texcoords + [u, v];
      positions := positions + [RADIUS * n.x, RADIUS * n.y, RADIUS * n.z];
      longNumber := longNumber + 1;
    }
    VerticesRow(m, phiOffset, positions, normals, texcoords, latNumber);
  }

  /** Every texture coordinate of a filled grid lies in [0, 1]. */
  lemma TexCoordsInUnitSquare(m: MathLib, phiOffset: real, positions: seq<real>, normals: seq<real>, texcoords: seq<real>)
    requires |texcoords| == 2 * VERTEX_COUNT
    requires VerticesFilled(m, phiOffset, positions, normals, texcoords, LATITUDE_BANDS + 1, 0)
    ensures forall i :: 0 <= i < |texcoords| ==> 0.0 <= texcoords[i] <= 1.0
  {
    forall i | 0 <= i < |texcoords|
      ensures 0.0 <= texcoords[i] <= 1.0
    {
      var k := i / 2;
      var lat, long := k / ROW, k % ROW;
      assert VertexIndex(lat, long) == k;
      TexCoordInUnitSquare(lat, long);
      assert texcoords[2 * k .. 2 * k + 2] == TexCoord(lat, long);
      assert texcoords[i] == TexCoord(lat, long)[i - 2 * k];
    }
  }

  /** One more inner iteration adds the data of one more vertex. */
  lemma VerticesStep(m: MathLib, phiOffset: real, positions: seq<real>, normals: seq<real>, texcoords: seq<real>,
                     latNumber: nat, longNumber: nat)
    requires longNumber <= LONGITUDE_BANDS
    requires |positions| == 3 * VertexIndex(latNumber, longNumber) && |normals| == 3 * VertexIndex(latNumber, longNumber)
    requires |texcoords| == 2 * VertexIndex(latNumber, longNumber)
    requires VerticesFilled(m, phiOffset, positions, normals, texcoords, latNumber, longNumber)
    ensures VerticesFilled(m, phiOffset,
                           positions + Position(m, latNumber, longNumber, phiOffset).Extract(),
                           normals + Normal(m, latNumber, longNumber, phiOffset).Extract(),
                           texcoords + TexCoord(latNumber, longNumber),
                           latNumber, longNumber + 1)
  {
    var p := positions + Position(m, latNumber, longNumber, phiOffset).Extract();
    var n := normals + Normal(m, latNumber, longNumber, phiOffset).Extract();
    var t := texcoords + TexCoord(latNumber, longNumber);
    forall lat: nat, long: nat | (lat < latNumber && long <= LONGITUDE_BANDS) || (lat == latNumber && long < longNumber + 1)
      ensures && 3 * VertexIndex(lat, long) + 3 <= |p| && 3 * VertexIndex(lat, long) + 3 <= |n|
              && 2 * VertexIndex(lat, long) + 2 <= |t|
              && n[3 * VertexIndex(lat, long) .. 3 * VertexIndex(lat, long) + 3] == Normal(m, lat, long, phiOffset).Extract()
              && p[3 * VertexIndex(lat, long) .. 3 * VertexIndex(lat, long) + 3] == Position(m, lat, long, phiOffset).Extract()
              && t[2 * VertexIndex(lat, long) .. 2 * VertexIndex(lat, long) + 2] == TexCoord(lat, long)
    {
      if lat == latNumber && long == longNumber {
        assert n[|normals| .. |normals| + 3] == Normal(m, lat, long, phiOffset).Extract();
        assert p[|positions| .. |positions| + 3] == Position(m, lat, long, phiOffset).Extract();
        assert t[|texcoords| .. |texcoords| + 2] == TexCoord(lat, long);
      } else {
        VertexBefore(lat, long, latNumber, longNumber);
        var k := VertexIndex(lat, long);
        AppendKeepsSlice(normals, Normal(m, latNumber, longNumber, phiOffset).Extract(), 3 * k, 3 * k + 3);
        AppendKeepsSlice(positions, Position(m, latNumber, longNumber, phiOffset).Extract(), 3 * k, 3 * k + 3);
        AppendKeepsSlice(texcoords, TexCoord(latNumber, longNumber), 2 * k, 2 * k + 2);
      }
    }
  }

  /** A finished row is the start of the next one. */
  lemma VerticesRow(m: MathLib, phiOffset: real, positions: seq<real>, normals: seq<real>, texcoords: seq<real>, latNumber: nat)
    requires VerticesFilled(m, phiOffset, positions, normals, texcoords, latNumber, LONGITUDE_BANDS + 1)
    ensures VerticesFilled(m, phiOffset, positions, normals, texcoords, latNumber + 1, 0)
  {
  }

  /** A vertex visited before (`latNumber`, `longNumber`) has a smaller index. */
  lemma VertexBefore(lat: nat, long: nat, latNumber: nat, longNumber: nat)
    requires (lat < latNumber && long <= LONGITUDE_BANDS) || (lat == latNumber && long < longNumber)
    ensures VertexIndex(lat, long) + 1 <= VertexIndex(latNumber, longNumber)
  {
    if lat < latNumber {
      assert lat * ROW + ROW <= latNumber * ROW;
    }
  }
}
