/** The constant tables of the procedural cube: the eight corners, the
    triangle order over them, the six axis normals, the corner colours, the
    24-vertex indexed cube, and the prototype asteroid. */
module AsterTables {
  import opened Common

  /** Vertices of the unindexed cube: 12 triangles of 3 vertices. */
  const NumVertices: nat := 36

  /** Sizes of the generated arrays calcCube, calcColor, calcNorm (three
      floats per vertex) and calcTex (two per vertex). */
  const CalcSize: nat := 108
  const CalcTexSize: nat := 72

  const Corners: seq<Vec3> := [
    Vec3(0.5, 0.5, 0.5), Vec3(-0.5, 0.5, 0.5), Vec3(-0.5, -0.5, 0.5), Vec3(0.5, -0.5, 0.5),
    Vec3(0.5, -0.5, -0.5), Vec3(0.5, 0.5, -0.5), Vec3(-0.5, 0.5, -0.5), Vec3(-0.5, -0.5, -0.5)]

  /** The corner of each vertex of the unindexed cube, three per triangle. */
  const Indices: seq<nat> := [
    0, 1, 2, 0, 2, 3,
    0, 3, 4, 0, 4, 5,
    0, 5, 6, 0, 6, 1,
    7, 1, 6, 7, 2, 1,
    7, 5, 4, 7, 6, 5,
    7, 3, 2, 7, 4, 3]

  /** +x, +y, +z, -x, -y, -z. */
  const Normals: seq<Vec3> := [
    Vec3(1.0, 0.0, 0.0), Vec3(0.0, 1.0, 0.0), Vec3(0.0, 0.0, 1.0),
    Vec3(-1.0, 0.0, 0.0), Vec3(0.0, -1.0, 0.0), Vec3(0.0, 0.0, -1.0)]

  const Colors: seq<Vec3> := [
    Vec3(1.0, 0.0, 0.0), Vec3(0.0, 1.0, 0.0), Vec3(0.0, 0.0, 1.0), Vec3(1.0, 1.0, 0.0),
    Vec3(0.0, 1.0, 1.0), Vec3(1.0, 0.5, 0.5), Vec3(0.5, 0.5, 1.0), Vec3(1.0, 0.0, 1.0)]

  /** The indexed cube: 24 vertices (72 floats), their normals, texture
      coordinates (48 floats) and colours, and 36 indices into them. */
  const CubeVerts: seq<real> := [
    -0.5, -0.5, -0.5,  -0.5, -0.5, 0.5,   0.5, -0.5, 0.5,   0.5, -0.5, -0.5,
    -0.5, 0.5, -0.5,   -0.5, 0.5, 0.5,    0.5, 0.5, 0.5,    0.5, 0.5, -0.5,
    -0.5, -0.5, -0.5,  -0.5, 0.5, -0.5,   0.5, 0.5, -0.5,   0.5, -0.5, -0.5,
    -0.5, -0.5, 0.5,   -0.5, 0.5, 0.5,    0.5, 0.5, 0.5,    0.5, -0.5, 0.5,
    -0.5, -0.5, -0.5,  -0.5, -0.5, 0.5,   -0.5, 0.5, 0.5,   -0.5, 0.5, -0.5,
    0.5, -0.5, -0.5,   0.5, -0.5, 0.5,    0.5, 0.5, 0.5,    0.5, 0.5, -0.5]

  const CubeNormals: seq<real> := [
    0.0, -1.0, 0.0,  0.0, -1.0, 0.0,  0.0, -1.0, 0.0,  0.0, -1.0, 0.0,
    0.0, 1.0, 0.0,   0.0, 1.0, 0.0,   0.0, 1.0, 0.0,   0.0, 1.0, 0.0,
    0.0, 0.0, -1.0,  0.0, 0.0, -1.0,  0.0, 0.0, -1.0,  0.0, 0.0, -1.0,
    0.0, 0.0, 1.0,   0.0, 0.0, 1.0,   0.0, 0.0, 1.0,   0.0, 0.0, 1.0,
    -1.0, 0.0, 0.0,  -1.0, 0.0, 0.0,  -1.0, 0.0, 0.0,  -1.0, 0.0, 0.0,
    1.0, 0.0, 0.0,   1.0, 0.0, 0.0,   1.0, 0.0, 0.0,   1.0, 0.0, 0.0]

  const CubeTex: seq<real> := [
    0.0, 0.0, 0.0, 1.0, 1.0, 1.0, 1.0, 0.0,
    1.0, 0.0, 1.0, 1.0, 0.0, 1.0, 0.0, 0.0,
    0.0, 0.0, 0.0, 1.0, 1.0, 1.0, 1.0, 0.0,
    0.0, 0.0, 0.0, 1.0, 1.0, 1.0, 1.0, 0.0,
    0.0, 0.0, 0.0, 1.0, 1.0, 1.0, 1.0, 0.0,
    0.0, 0.0, 0.0, 1.0, 1.0, 1.0, 1.0, 0.0]

  const CubeColors: seq<real> := [
    1.0, 0.0, 0.0,  0.0, 1.0, 0.0,  0.0, 0.0, 1.0,  1.0, 1.0, 0.0,
    0.0, 1.0, 1.0,  1.0, 0.5, 0.5,  0.5, 0.5, 1.0,  1.0, 0.0, 1.0,
    1.0, 0.0, 0.0,  0.0, 1.0, 0.0,  0.0, 0.0, 1.0,  1.0, 1.0, 0.0,
    0.0, 1.0, 1.0,  1.0, 0.5, 0.5,  0.5, 0.5, 1.0,  1.0, 0.0, 1.0,
    1.0, 0.0, 0.0,  0.0, 1.0, 0.0,  0.0, 0.0, 1.0,  1.0, 1.0, 0.0,
    0.0, 1.0, 1.0,  1.0, 0.5, 0.5,  0.5, 0.5, 1.0,  1.0, 0.0, 1.0]

  const CubeIndices: seq<nat> := [
    0, 2, 1,  0, 3, 2,  4, 5, 6,  4, 6, 7,
    8, 9, 10,  8, 10, 11,  12, 15, 14,  12, 14, 13,
    16, 17, 18,  16, 18, 19,  20, 23, 22,  20, 22, 21]

  /** Corners, edge midpoints and face centres of the prototype asteroid. */
  const SmallAsteroid: seq<Vec3> := [
    Vec3(0.5, 0.5, 0.5), Vec3(0.0, 0.5, 0.5), Vec3(-0.5, 0.5, 0.5),
    Vec3(0.5, 0.0, 0.5), Vec3(0.0, 0.0, 0.5), Vec3(-0.5, 0.0, 0.5),
    Vec3(0.5, -0.5, 0.5), Vec3(0.0, -0.5, 0.5), Vec3(-0.5, -0.5, 0.5),
    Vec3(0.5, 0.5, -0.5), Vec3(0.0, 0.5, -0.5), Vec3(-0.5, 0.5, -0.5),
    Vec3(0.5, 0.0, -0.5), Vec3(0.0, 0.0, -0.5), Vec3(-0.5, 0.0, -0.5),
    Vec3(0.5, -0.5, -0.5), Vec3(0.0, -0.5, -0.5), Vec3(-0.5, -0.5, -0.5),
    Vec3(0.5, 0.5, 0.0), Vec3(0.5, 0.0, 0.0), Vec3(0.5, -0.5, 0.0),
    Vec3(-0.5, 0.5, 0.0), Vec3(-0.5, 0.0, 0.0), Vec3(-0.5, -0.5, 0.0),
    Vec3(0.0, 0.5, 0.0), Vec3(0.0, -0.5, 0.0)]

  const SmallTotal: nat := 12

  const SmallIndices: seq<nat> := [0, 1, 4, 4, 0, 3, 7, 4, 8, 8, 4, 5]

  /** Every entry of a table is a valid index below n. */
  predicate IndexTable(t: seq<nat>, n: nat)
  {
    forall k :: 0 <= k < |t| ==> t[k] < n
  }

  /** The unindexed cube: 36 corner indices, each one of the 8 corners. */
  lemma IndicesValid()
    ensures |Indices| == NumVertices && |Corners| == 8 && |Colors| == 8
    ensures IndexTable(Indices, |Corners|)
  {
  }

  /** The indexed cube: 36 indices into its 24 vertices, normals, texture
      coordinates and colours. */
  lemma CubeIndicesValid()
    ensures |CubeIndices| == NumVertices
    ensures |CubeVerts| == 24 * 3 && |CubeNormals| == 24 * 3 && |CubeColors| == 24 * 3
    ensures |CubeTex| == 24 * 2
    ensures IndexTable(CubeIndices, |CubeVerts| / 3)
  {
  }

  /** The prototype asteroid: smalltotal indices, each one of its 26 points. */
  lemma SmallIndicesValid()
    ensures |SmallAsteroid| == 26 && |SmallIndices| == SmallTotal == 12
    ensures IndexTable(SmallIndices, |SmallAsteroid|)
  {
  }

  /** The generated arrays hold three (two for texture coordinates) floats
      for each of the 36 vertices. */
  lemma CalcSizes()
    ensures CalcSize == NumVertices * 3 && CalcTexSize == NumVertices * 2
  {
  }

  predicate Half(r: real)
  {
    r == 0.5 || r == -0.5
  }

  /** A signed unit axis: one coordinate is 1 or -1, the other two are 0. */
  predicate UnitAxis(n: Vec3)
  {
    (Abs(n.x) == 1.0 && n.y == 0.0 && n.z == 0.0) ||
    (n.x == 0.0 && Abs(n.y) == 1.0 && n.z == 0.0) ||
    (n.x == 0.0 && n.y == 0.0 && Abs(n.z) == 1.0)
  }

  /** Every corner coordinate is plus or minus one half, the corners are the
      eight distinct sign patterns, and the normals are the six signed unit
      axes, each the negation of the one three places on. */
  lemma TableShapes()
    ensures forall k :: 0 <= k < |Corners| ==>
              Half(Corners[k].x) && Half(Corners[k].y) && Half(Corners[k].z)
    ensures forall k, m :: 0 <= k < m < |Corners| ==> Corners[k] != Corners[m]
    ensures |Normals| == 6
    ensures forall k :: 0 <= k < 6 ==> UnitAxis(Normals[k])
    ensures forall k :: 0 <= k < 3 ==> Normals[k + 3] == Neg(Normals[k])
  {
  }
}
