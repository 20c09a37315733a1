/** The procedural cube (class AsterObject): the 36-vertex cube expanded
    from the corner tables with one axis normal and 0/1 texture
    coordinates per face, its interleaving into one vertex buffer whose
    stride the flags choose, and the prototype asteroid gathered from its
    point table. */
module AsterObject {
  import opened Common
  import opened AsterTables

  function Comp(v: Vec3, c: nat): real
    requires c < 3
  {
    if c == 0 then v.x else if c == 1 then v.y else v.z
  }

  function Flat3(v: Vec3): seq<real> { [v.x, v.y, v.z] }

  function Flat2(v: Vec2): seq<real> { [v.x, v.y] }

  /** The coordinates of the first n vertices. */
  function Flats(vs: seq<Vec3>, n: nat): (r: seq<real>)
    requires n <= |vs|
    ensures |r| == 3 * n
  {
    if n == 0 then [] else Flats(vs, n - 1) + Flat3(vs[n - 1])
  }

  function Flats2(vs: seq<Vec2>, n: nat): (r: seq<real>)
    requires n <= |vs|
    ensures |r| == 2 * n
  {
    if n == 0 then [] else Flats2(vs, n - 1) + Flat2(vs[n - 1])
  }

  /** Float 3v + c of the first n vertices is coordinate c of vertex v. */
  lemma {:induction false} FlatsAt(vs: seq<Vec3>, n: nat, v: nat, c: nat)
    requires v < n <= |vs| && c < 3
    ensures Flats(vs, n)[3 * v + c] == Comp(vs[v], c)
  {
    if v < n - 1 {
      FlatsAt(vs, n - 1, v, c);
    }
  }

  /** Float 2v + c of the first n texture pairs is component c of pair v. */
  lemma {:induction false} Flats2At(vs: seq<Vec2>, n: nat, v: nat, c: nat)
    requires v < n <= |vs| && c < 2
    ensures Flats2(vs, n)[2 * v + c] == (if c == 0 then vs[v].x else vs[v].y)
  {
    if v < n - 1 {
      Flats2At(vs, n - 1, v, c);
    }
  }

  // ---------------------------------------------------------------------
  // The member tables

  /** The tables the object reads: corners, the corner of each expanded
      vertex, the six normals, the corner colours, and the asteroid's
      points with the indices that pick them. */
  datatype Tables = Tables(cube: seq<Vec3>, indices: seq<nat>, normals: seq<Vec3>,
                           colors: seq<Vec3>, small: seq<Vec3>, smallIndices: seq<nat>)

  predicate WellFormed(tb: Tables)
  {
    |tb.indices| == NumVertices && |tb.normals| == 6 && |tb.colors| == |tb.cube| &&
    IndexTable(tb.indices, |tb.cube|) &&
    |tb.smallIndices| == SmallTotal && IndexTable(tb.smallIndices, |tb.small|)
  }

  type ValidTables = tb: Tables | WellFormed(tb)
    witness Tables([Zero3], seq(NumVertices, k => 0), seq(6, k => Zero3), [Zero3], [Zero3],
                   seq(SmallTotal, k => 0))

  /** The tables of the header. */
  const Defaults: ValidTables := Tables(Corners, Indices, Normals, Colors, SmallAsteroid, SmallIndices)

  // ---------------------------------------------------------------------
  // Faces, normals and texture coordinates

  /** The three vertices of a triangle share coordinate c. */
  predicate Flat(tri: seq<Vec3>, c: nat)
    requires |tri| == 3 && c < 3
  {
    Comp(tri[0], c) == Comp(tri[1], c) && Comp(tri[0], c) == Comp(tri[2], c) &&
    Comp(tri[1], c) == Comp(tri[2], c)
  }

  /** The face test of genMatrices for axis c and a side: flat on c, with
      that coordinate positive (or negative). */
  predicate OnFace(tri: seq<Vec3>, c: nat, positive: bool)
    requires |tri| == 3 && c < 3
  {
    Flat(tri, c) && (if positive then Comp(tri[0], c) > 0.0 else Comp(tri[0], c) < 0.0)
  }

  /** Test k of genMatrices' chain, for k < 6: the triangle is flat on axis
      k / 2, on the positive side for even k. The order is +x, -x, +y, -y,
      +z, -z. */
  predicate Test(tri: seq<Vec3>, k: nat)
    requires |tri| == 3 && k < 6
  {
    OnFace(tri, k / 2, k % 2 == 0)
  }

  /** The normal test k assigns: normals[0], [3], [1], [4], [2], [5]. */
  function NormalOf(k: nat): nat
    requires k < 6
  {
    if k % 2 == 0 then k / 2 else k / 2 + 3
  }

  /** The normal the chain from test k on gives: that of the first test
      that holds, or the zero vector the arrays start from. */
  function FirstFace(tb: ValidTables, tri: seq<Vec3>, k: nat): Vec3
    requires |tri| == 3 && k <= 6
    decreases 6 - k
  {
    if k == 6 then Zero3
    else if Test(tri, k) then tb.normals[NormalOf(k)]
    else FirstFace(tb, tri, k + 1)
  }

  /** The normal genMatrices gives a triangle. */
  function FaceNormal(tb: ValidTables, tri: seq<Vec3>): Vec3
    requires |tri| == 3
  {
    FirstFace(tb, tri, 0)
  }

  /** The first test from k on that holds decides the normal. */
  lemma {:induction false} FirstFaceHit(tb: ValidTables, tri: seq<Vec3>, k: nat, m: nat)
    requires |tri| == 3 && k <= m < 6 && Test(tri, m)
    requires forall i :: k <= i < m ==> !Test(tri, i)
    ensures FirstFace(tb, tri, k) == tb.normals[NormalOf(m)]
    decreases m - k
  {
    if k < m {
      FirstFaceHit(tb, tri, k + 1, m);
    }
  }

  /** With no zero vector among the normals, the chain gives the zero vector
      exactly when no test from k on holds, and one of the normals
      otherwise. */
  lemma {:induction false} FirstFaceMiss(tb: ValidTables, tri: seq<Vec3>, k: nat)
    requires |tri| == 3 && k <= 6 && Zero3 !in tb.normals
    ensures FirstFace(tb, tri, k) == Zero3 <==> forall i :: k <= i < 6 ==> !Test(tri, i)
    ensures FirstFace(tb, tri, k) == Zero3 || FirstFace(tb, tri, k) in tb.normals
    decreases 6 - k
  {
    if k < 6 {
      FirstFaceMiss(tb, tri, k + 1);
    }
  }

  /** The header's normals: test k picks the unit vector of axis k / 2,
      pointing to the side the test checks. */
  lemma NormalsOfTests(k: nat)
    requires k < 6
    ensures UnitAxis(Normals[NormalOf(k)])
    ensures Comp(Normals[NormalOf(k)], k / 2) == (if k % 2 == 0 then 1.0 else -1.0)
    ensures Zero3 !in Normals
  {
    assert k == 0 || k == 1 || k == 2 || k == 3 || k == 4 || k == 5;
  }

  /** A nonzero coordinate of a triangle's normal is one on which the
      triangle's three vertices agree: the normal is perpendicular to it. */
  lemma {:induction false} FirstFaceFlat(tri: seq<Vec3>, k: nat, c: nat)
    requires |tri| == 3 && k <= 6 && c < 3
    ensures Comp(FirstFace(Defaults, tri, k), c) != 0.0 ==> Flat(tri, c)
    decreases 6 - k
  {
    if k < 6 {
      if Test(tri, k) {
        NormalsOfTests(k);
      } else {
        FirstFaceFlat(tri, k + 1, c);
      }
    }
  }

  function Bit(b: bool): real { if b then 1.0 else 0.0 }

  /** genTexture: the two in-plane coordinates of the face the normal
      selects, each mapped to 1 when positive and to 0 otherwise. */
  function GenTexture(normal: Vec3, p: Vec3): (t: Vec2)
    ensures (t.x == 0.0 || t.x == 1.0) && (t.y == 0.0 || t.y == 1.0)
    ensures normal.x != 0.0 ==> (t.x == 1.0 <==> p.y > 0.0) && (t.y == 1.0 <==> p.z > 0.0)
    ensures normal.x == 0.0 && normal.y != 0.0 ==>
              (t.x == 1.0 <==> p.x > 0.0) && (t.y == 1.0 <==> p.z > 0.0)
    ensures normal.x == 0.0 && normal.y == 0.0 && normal.z != 0.0 ==>
              (t.x == 1.0 <==> p.x > 0.0) && (t.y == 1.0 <==> p.y > 0.0)
  {
    if normal.x != 0.0 then Vec2(Bit(p.y > 0.0), Bit(p.z > 0.0))
    else if normal.y != 0.0 then Vec2(Bit(p.x > 0.0), Bit(p.z > 0.0))
    else if normal.z != 0.0 then Vec2(Bit(p.x > 0.0), Bit(p.y > 0.0))
    else Vec2(0.0, 0.0)
  }

  /** The texture coordinates of a triangle's vertices: zero when no face
      matched, genTexture of the normal and the vertex otherwise. */
  function Textures(normal: Vec3, tri: seq<Vec3>): (ts: seq<Vec2>)
    requires |tri| == 3
    ensures |ts| == 3
  {
    if normal == Zero3 then [Vec2(0.0, 0.0), Vec2(0.0, 0.0), Vec2(0.0, 0.0)]
    else [GenTexture(normal, tri[0]), GenTexture(normal, tri[1]), GenTexture(normal, tri[2])]
  }

  /** Triangle t of the expanded cube and its corner colours. */
  function Tri(tb: ValidTables, t: nat): (tri: seq<Vec3>)
    requires t < 12
    ensures |tri| == 3
  {
    [tb.cube[tb.indices[3 * t]], tb.cube[tb.indices[3 * t + 1]], tb.cube[tb.indices[3 * t + 2]]]
  }

  function TriColors(tb: ValidTables, t: nat): (col: seq<Vec3>)
    requires t < 12
    ensures |col| == 3
  {
    [tb.colors[tb.indices[3 * t]], tb.colors[tb.indices[3 * t + 1]], tb.colors[tb.indices[3 * t + 2]]]
  }

  /** The generated arrays of the cube. */
  datatype Part = Position | Color | Normal | Tex

  /** Where triangle t starts in the array of part p. */
  function Offset(p: Part, t: nat): nat
  {
    if p == Tex then 6 * t else 9 * t
  }

  /** The floats triangle t contributes to the array of part p. */
  function Block(tb: ValidTables, t: nat, p: Part): (b: seq<real>)
    requires t < 12
    ensures |b| == Offset(p, 1)
  {
    var tri := Tri(tb, t);
    match p
    case Position => Flats(tri, 3)
    case Color => Flats(TriColors(tb, t), 3)
    case Normal =>
      var n := FaceNormal(tb, tri);
      Flats([n, n, n], 3)
    case Tex => Flats2(Textures(FaceNormal(tb, tri), tri), 3)
  }

  /** The concatenation of blocks, in order. */
  function Join(bs: seq<seq<real>>): seq<real>
  {
    if |bs| == 0 then [] else Join(bs[..|bs| - 1]) + bs[|bs| - 1]
  }

  lemma JoinSnoc(bs: seq<seq<real>>, b: seq<real>)
    ensures Join(bs + [b]) == Join(bs) + b
  {
    assert (bs + [b])[..|bs|] == bs;
  }

  /** n blocks of width w make w * n floats. */
  lemma {:induction false} JoinLength(bs: seq<seq<real>>, w: nat)
    requires forall k :: 0 <= k < |bs| ==> |bs[k]| == w
    ensures |Join(bs)| == w * |bs|
  {
    if |bs| > 0 {
      JoinLength(bs[..|bs| - 1], w);
    }
  }

  /** Block t starts where the first t blocks end. */
  lemma {:induction false} JoinAt(bs: seq<seq<real>>, t: nat, j: nat)
    requires t < |bs| && j < |bs[t]|
    ensures |Join(bs[..t])| + j < |Join(bs)|
    ensures Join(bs)[|Join(bs[..t])| + j] == bs[t][j]
  {
    var n := |bs|;
    var pre := bs[..n - 1];
    if t < n - 1 {
      JoinAt(pre, t, j);
      assert pre[..t] == bs[..t];
    } else {
      assert bs[..t] == pre;
    }
  }

  /** The blocks of part p of the first n triangles. */
  function Blocks(tb: ValidTables, p: Part, n: nat): (bs: seq<seq<real>>)
    requires n <= 12
    ensures |bs| == n
  {
    seq(n, k requires 0 <= k < n => Block(tb, k, p))
  }

  /** The array of part p after the first n triangles of genMatrices. */
  function Generated(tb: ValidTables, p: Part, n: nat): (r: seq<real>)
    requires n <= 12
    ensures |r| == Offset(p, n)
  {
    var bs := Blocks(tb, p, n);
    assert forall k :: 0 <= k < |bs| ==> |bs[k]| == Offset(p, 1);
    JoinLength(bs, Offset(p, 1));
    Join(bs)
  }

  /** Each triangle appends its block. */
  lemma GeneratedStep(tb: ValidTables, p: Part, t: nat)
    requires t < 12
    ensures Generated(tb, p, t + 1) == Generated(tb, p, t) + Block(tb, t, p)
  {
    assert Blocks(tb, p, t + 1) == Blocks(tb, p, t) + [Block(tb, t, p)];
    JoinSnoc(Blocks(tb, p, t), Block(tb, t, p));
  }

  /** Triangle t appends its vertices, colours, normal and texture
      coordinates to the four arrays. */
  lemma TriangleStep(tb: ValidTables, t: nat)
    requires t < 12
    ensures var tri, n := Tri(tb, t), FaceNormal(tb, Tri(tb, t));
            Generated(tb, Position, t + 1) == Generated(tb, Position, t) + Flats(tri, 3) &&
            Generated(tb, Color, t + 1) == Generated(tb, Color, t) + Flats(TriColors(tb, t), 3) &&
            Generated(tb, Normal, t + 1) == Generated(tb, Normal, t) + Flats([n, n, n], 3) &&
            Generated(tb, Tex, t + 1) == Generated(tb, Tex, t) + Flats2(Textures(n, tri), 3)
  {
    GeneratedStep(tb, Position, t);
    GeneratedStep(tb, Color, t);
    GeneratedStep(tb, Normal, t);
    GeneratedStep(tb, Tex, t);
  }

  /** Appending vertex z's floats extends the first z vertices by one. */
  lemma FlatsSnoc(pre: seq<real>, vs: seq<Vec3>, z: nat)
    requires z < |vs|
    ensures pre + Flats(vs, z) + Flat3(vs[z]) == pre + Flats(vs, z + 1)
  {
  }

  lemma Flats2Snoc(pre: seq<real>, vs: seq<Vec2>, z: nat)
    requires z < |vs|
    ensures pre + Flats2(vs, z) + Flat2(vs[z]) == pre + Flats2(vs, z + 1)
  {
  }

  /** Entry j of triangle t's block sits at Offset(p, t) + j. */
  lemma GeneratedAt(tb: ValidTables, p: Part, n: nat, t: nat, j: nat)
    requires n <= 12 && t < n && j < Offset(p, 1)
    ensures Offset(p, t) + j < Offset(p, n)
    ensures Generated(tb, p, n)[Offset(p, t) + j] == Block(tb, t, p)[j]
  {
    var w := Offset(p, 1);
    var bs := Blocks(tb, p, n);
    assert Generated(tb, p, n) == Join(bs);
    assert forall k :: 0 <= k < |bs| ==> |bs[k]| == w;
    JoinAt(bs, t, j);
    var pre := bs[..t];
    assert forall k :: 0 <= k < |pre| ==> |pre[k]| == w;
    JoinLength(pre, w);
    OffsetOrder(p, t, n);
  }

  /** Offsets grow by one block per triangle. */
  lemma OffsetOrder(p: Part, t: nat, n: nat)
    requires t < n
    ensures Offset(p, 1) * t == Offset(p, t) && Offset(p, t) + Offset(p, 1) <= Offset(p, n)
  {
  }

  /** calcCube[9t + 3v + c] is coordinate c of corner indices[3t + v],
      calcColor the same coordinate of that corner's colour, and calcNorm
      coordinate c of the triangle's one normal, whichever its vertex v. */
  lemma GeneratedLayout(tb: ValidTables, t: nat, v: nat, c: nat)
    requires t < 12 && v < 3 && c < 3
    ensures 9 * t + 3 * v + c < CalcSize
    ensures Generated(tb, Position, 12)[9 * t + 3 * v + c] == Comp(tb.cube[tb.indices[3 * t + v]], c)
    ensures Generated(tb, Color, 12)[9 * t + 3 * v + c] == Comp(tb.colors[tb.indices[3 * t + v]], c)
    ensures Generated(tb, Normal, 12)[9 * t + 3 * v + c] == Comp(FaceNormal(tb, Tri(tb, t)), c)
  {
    GeneratedAt(tb, Position, 12, t, 3 * v + c);
    GeneratedAt(tb, Color, 12, t, 3 * v + c);
    GeneratedAt(tb, Normal, 12, t, 3 * v + c);
    var n := FaceNormal(tb, Tri(tb, t));
    FlatsAt([n, n, n], 3, v, c);
    FlatsAt(Tri(tb, t), 3, v, c);
    FlatsAt(TriColors(tb, t), 3, v, c);
  }

  /** Every texture coordinate generated is exactly 0 or 1. */
  lemma TexBits(tb: ValidTables, k: nat)
    requires k < CalcTexSize
    ensures Generated(tb, Tex, 12)[k] == 0.0 || Generated(tb, Tex, 12)[k] == 1.0
  {
    var t := k / 6;
    var j := k % 6;
    GeneratedAt(tb, Tex, 12, t, j);
    var tri := Tri(tb, t);
    var ts := Textures(FaceNormal(tb, tri), tri);
    Flats2At(ts, 3, j / 2, j % 2);
  }

  /** The face each triangle of the header's cube lies on: the first test
      genMatrices' chain finds. */
  const FaceTests: seq<nat> := [4, 4, 0, 0, 2, 2, 1, 1, 5, 5, 3, 3]

  /** Test FaceTests[t] holds for triangle t and no earlier test does, so
      it is the test whose normal genMatrices gives the triangle. */
  lemma TrianglesOnFaces(t: nat)
    requires t < 12
    ensures FaceTests[t] < 6 && Test(Tri(Defaults, t), FaceTests[t])
    ensures forall k :: 0 <= k < FaceTests[t] ==> !Test(Tri(Defaults, t), k)
    ensures FaceNormal(Defaults, Tri(Defaults, t)) == Defaults.normals[NormalOf(FaceTests[t])]
  {
    assert Tri(Defaults, t) ==
           [Corners[Indices[3 * t]], Corners[Indices[3 * t + 1]], Corners[Indices[3 * t + 2]]];
    if t < 4 {
      CornersOnFaces(t, 0);
    } else if t < 8 {
      CornersOnFaces(t, 4);
    } else {
      CornersOnFaces(t, 8);
    }
    FirstFaceHit(Defaults, Tri(Defaults, t), 0, FaceTests[t]);
  }

  /** The check on the header's tables, four triangles at a time. */
  lemma CornersOnFaces(t: nat, first: nat)
    requires first == 0 || first == 4 || first == 8
    requires first <= t < first + 4
    ensures var m := FaceTests[t];
            var tri := [Corners[Indices[3 * t]], Corners[Indices[3 * t + 1]], Corners[Indices[3 * t + 2]]];
            m < 6 && Test(tri, m) && forall k :: 0 <= k < m ==> !Test(tri, k)
  {
    if first == 0 {
      assert t == 0 || t == 1 || t == 2 || t == 3;
    } else if first == 4 {
      assert t == 4 || t == 5 || t == 6 || t == 7;
    } else {
      assert t == 8 || t == 9 || t == 10 || t == 11;
    }
  }

  /** Every triangle of the header's cube lies on a face, so each gets a
      unit axis normal, never the zero vector, perpendicular to that face. */
  lemma EveryFaceClassified(t: nat)
    requires t < 12
    ensures FaceNormal(Defaults, Tri(Defaults, t)) != Zero3
    ensures UnitAxis(FaceNormal(Defaults, Tri(Defaults, t)))
    ensures forall c :: 0 <= c < 3 && Comp(FaceNormal(Defaults, Tri(Defaults, t)), c) != 0.0 ==>
              Flat(Tri(Defaults, t), c)
  {
    var tri := Tri(Defaults, t);
    TrianglesOnFaces(t);
    var m := FaceTests[t];
    NormalsOfTests(m);
    FirstFaceMiss(Defaults, tri, 0);
    TableShapes();
    forall c | 0 <= c < 3 && Comp(FaceNormal(Defaults, tri), c) != 0.0
      ensures Flat(tri, c)
    {
      FirstFaceFlat(tri, 0, c);
    }
  }

  // ---------------------------------------------------------------------
  // Interleaving

  /** The four generated arrays, sized as in the header. */
  datatype Mats = Mats(cube: seq<real>, color: seq<real>, norm: seq<real>, tex: seq<real>)

  predicate Sized(m: Mats)
  {
    |m.cube| == CalcSize && |m.color| == CalcSize && |m.norm| == CalcSize && |m.tex| == CalcTexSize
  }

  /** The flags of genCube. */
  datatype Layout = Layout(colored: bool, normaled: bool, textured: bool)

  /** The stride genCube allocates for the flags, in the order of its
      branches. */
  function AllocStride(f: Layout): nat
  {
    var colored, normaled, textured := f.colored, f.normaled, f.textured;
    if colored && textured && normaled then 11
    else if !textured && colored && normaled then 9
    else if !colored && textured && normaled then 8
    else if !normaled && textured && colored then 8
    else if !colored && !textured && normaled then 6
    else if !normaled && !textured && colored then 6
    else if !normaled && !colored && textured then 5
    else 3
  }

  /** The floats of vertex x in genCube's output: position, then colour,
      normal and texture coordinates for the flags that are set. */
  function VertexFloats(m: Mats, f: Layout, x: nat): seq<real>
    requires Sized(m) && x < NumVertices
  {
    m.cube[3 * x..3 * x + 3] +
    (if f.colored then m.color[3 * x..3 * x + 3] else []) +
    (if f.normaled then m.norm[3 * x..3 * x + 3] else []) +
    (if f.textured then m.tex[2 * x..2 * x + 2] else [])
  }

  /** Each branch of genCube allocates exactly one vertex's fields per
      vertex: three position floats, three more each for colour and
      normal, two for texture coordinates. */
  lemma StrideMatches(m: Mats, f: Layout, x: nat)
    requires Sized(m) && x < NumVertices
    ensures |VertexFloats(m, f, x)| == AllocStride(f)
    ensures AllocStride(f) ==
            3 + (if f.colored then 3 else 0) + (if f.normaled then 3 else 0) + (if f.textured then 2 else 0)
  {
  }

  /** genCube's output after the first n vertices. */
  function Interleaved(m: Mats, f: Layout, n: nat): seq<real>
    requires Sized(m) && n <= NumVertices
  {
    if n == 0 then [] else Interleaved(m, f, n - 1) + VertexFloats(m, f, n - 1)
  }

  /** n vertices take n strides. */
  lemma {:induction false} InterleavedLength(m: Mats, f: Layout, n: nat)
    requires Sized(m) && n <= NumVertices
    ensures |Interleaved(m, f, n)| == n * AllocStride(f)
  {
    if n > 0 {
      InterleavedLength(m, f, n - 1);
      StrideMatches(m, f, n - 1);
      var w := AllocStride(f);
      assert |Interleaved(m, f, n)| == |Interleaved(m, f, n - 1)| + w;
      StrideStep(n - 1, w);
    }
  }

  lemma StrideStep(k: nat, w: nat)
    ensures (k + 1) * w == k * w + w
  {
  }

  /** Vertex x occupies the floats between the ends of the first x and the
      first x + 1 vertices, in field order. */
  lemma {:induction false} InterleavedAt(m: Mats, f: Layout, n: nat, x: nat)
    requires Sized(m) && x < n <= NumVertices
    ensures |Interleaved(m, f, x + 1)| <= |Interleaved(m, f, n)|
    ensures Interleaved(m, f, n)[|Interleaved(m, f, x)|..|Interleaved(m, f, x + 1)|] ==
            VertexFloats(m, f, x)
  {
    if x < n - 1 {
      InterleavedAt(m, f, n - 1, x);
    }
  }

  /** Field k of vertex x sits at x * stride + k of genCube's buffer. */
  lemma VertexAt(m: Mats, f: Layout, x: nat, k: nat)
    requires Sized(m) && x < NumVertices && k < AllocStride(f)
    ensures x * AllocStride(f) + k < |Interleaved(m, f, NumVertices)|
    ensures Interleaved(m, f, NumVertices)[x * AllocStride(f) + k] == VertexFloats(m, f, x)[k]
  {
    InterleavedAt(m, f, NumVertices, x);
    InterleavedLength(m, f, x);
    InterleavedLength(m, f, x + 1);
    StrideMatches(m, f, x);
  }

  /** Every float of a sequence multiplied by k. */
  function Scaled(s: seq<real>, k: real): (r: seq<real>)
    ensures |r| == |s|
    ensures forall i :: 0 <= i < |s| ==> r[i] == s[i] * k
  {
    seq(|s|, i requires 0 <= i < |s| => s[i] * k)
  }

  /** Scaling in place compounds: two genCube calls scale by the product. */
  lemma ScaledTwice(s: seq<real>, a: real, b: real)
    ensures Scaled(Scaled(s, a), b) == Scaled(s, a * b)
  {
    forall i | 0 <= i < |s|
      ensures Scaled(Scaled(s, a), b)[i] == Scaled(s, a * b)[i]
    {
      assert (s[i] * a) * b == s[i] * (a * b);
    }
  }

  /** The interleaving loop of genCube, over a fresh buffer of
      NUM_VERTICES strides. */
  method Interleave(m: Mats, f: Layout) returns (ptr: array<real>)
    requires Sized(m)
    ensures fresh(ptr)
    ensures ptr.Length == NumVertices * AllocStride(f)
    ensures ptr[..] == Interleaved(m, f, NumVertices)
  {
    var stride := AllocStride(f);
    ptr := new real[NumVertices * stride];
    InterleavedLength(m, f, NumVertices);
    var at := 0;
    var x := 0;
    while x < NumVertices
      invariant 0 <= x <= NumVertices
      invariant at == |Interleaved(m, f, x)| && at <= ptr.Length
      invariant ptr[..at] == Interleaved(m, f, x)
    {
      InterleavedAt(m, f, NumVertices, x);
      at := PutFloats(ptr, at, VertexFloats(m, f, x));
      x := x + 1;
    }
    assert ptr[..] == ptr[..at];
  }

  /** Writes vals into a from index at on. */
  method PutFloats(a: array<real>, at: nat, vals: seq<real>) returns (next: nat)
    requires at + |vals| <= a.Length
    modifies a
    ensures next == at + |vals|
    ensures a[..next] == old(a[..at]) + vals
  {
    var k := 0;
    while k < |vals|
      invariant 0 <= k <= |vals|
      invariant a[..at + k] == old(a[..at]) + vals[..k]
    {
      a[at + k] := vals[k];
      assert a[..at + k + 1] == a[..at + k] + [vals[k]];
      assert vals[..k + 1] == vals[..k] + [vals[k]];
      k := k + 1;
    }
    assert vals[..k] == vals;
    next := at + k;
  }

  // ---------------------------------------------------------------------
  // The prototype asteroid

  /** genAsteroid's buffer after the first n points. */
  function SmallFloats(tb: ValidTables, n: nat): (r: seq<real>)
    requires n <= SmallTotal
    ensures |r| == 3 * n
  {
    if n == 0 then [] else SmallFloats(tb, n - 1) + Flat3(tb.small[tb.smallIndices[n - 1]])
  }

  /** Floats 3x .. 3x + 2 are the point smallindices[x]. */
  lemma {:induction false} SmallFloatsAt(tb: ValidTables, n: nat, x: nat, c: nat)
    requires x < n <= SmallTotal && c < 3
    ensures SmallFloats(tb, n)[3 * x + c] == Comp(tb.small[tb.smallIndices[x]], c)
  {
    if x < n - 1 {
      SmallFloatsAt(tb, n - 1, x, c);
    }
  }

  /** The gathering loop of genAsteroid. */
  method Gather(tb: ValidTables) returns (ptr: array<real>)
    ensures fresh(ptr)
    ensures ptr[..] == SmallFloats(tb, SmallTotal)
  {
    ptr := new real[SmallTotal * 3];
    var x := 0;
    while x < SmallTotal
      invariant 0 <= x <= SmallTotal
      invariant ptr[..3 * x] == SmallFloats(tb, x)
    {
      var p := tb.small[tb.smallIndices[x]];
      ptr[x * 3] := p.x;
      ptr[x * 3 + 1] := p.y;
      ptr[x * 3 + 2] := p.z;
      assert ptr[..3 * x + 3] == ptr[..3 * x] + Flat3(p);
      x := x + 1;
    }
    assert ptr[..] == ptr[..3 * x];
  }

  // ---------------------------------------------------------------------
  // The object

  /** The state of one AsterObject. */
  class Cube {
    /** The header's tables, members of the object. */
    const tables: ValidTables
    const calcCube: array<real>
    const calcColor: array<real>
    const calcNorm: array<real>
    const calcTex: array<real>
    /** The last buffer handed out. */
    var cubeptr: array<real>

    /** The four generated arrays are distinct and have the header's sizes. */
    predicate Valid()
      reads this
    {
      calcCube.Length == CalcSize && calcColor.Length == CalcSize &&
      calcNorm.Length == CalcSize && calcTex.Length == CalcTexSize &&
      calcCube != calcColor && calcCube != calcNorm && calcColor != calcNorm &&
      calcTex != calcCube && calcTex != calcColor && calcTex != calcNorm
    }

    function Current(): (m: Mats)
      requires Valid()
      reads this, calcCube, calcColor, calcNorm, calcTex
      ensures Sized(m)
    {
      Mats(calcCube[..], calcColor[..], calcNorm[..], calcTex[..])
    }

    /** The constructor runs genMatrices over the header's tables. */
    constructor()
      ensures Valid() && tables == Defaults
      ensures fresh(calcCube) && fresh(calcColor) && fresh(calcNorm) && fresh(calcTex)
      ensures calcCube[..] == Generated(tables, Position, 12)
      ensures calcColor[..] == Generated(tables, Color, 12)
      ensures calcNorm[..] == Generated(tables, Normal, 12)
      ensures calcTex[..] == Generated(tables, Tex, 12)
    {
      tables := Defaults;
      calcCube := new real[CalcSize];
      calcColor := new real[CalcSize];
      calcNorm := new real[CalcSize];
      calcTex := new real[CalcTexSize];
      cubeptr := new real[0];
      new;
      GenMatrices();
    }

    /** genMatrices: the 12 triangles in order, each classified once and
        written to the four arrays through the running counters. */
    method GenMatrices()
      requires Valid()
      modifies calcCube, calcColor, calcNorm, calcTex
      ensures calcCube[..] == Generated(tables, Position, 12)
      ensures calcColor[..] == Generated(tables, Color, 12)
      ensures calcNorm[..] == Generated(tables, Normal, 12)
      ensures calcTex[..] == Generated(tables, Tex, 12)
    {
      var countNorm := 0;
      var countTex := 0;
      var x := 0;
      var t := 0;
      while x < NumVertices
        invariant 0 <= t <= 12 && x == 3 * t
        invariant countNorm == 9 * t && countTex == 6 * t
        invariant calcCube[..countNorm] == Generated(tables, Position, t)
        invariant calcColor[..countNorm] == Generated(tables, Color, t)
        invariant calcNorm[..countNorm] == Generated(tables, Normal, t)
        invariant calcTex[..countTex] == Generated(tables, Tex, t)
      {
        countNorm, countTex := GenTriangle(t);
        x := x + 3;
        t := t + 1;
      }
    }

    /** One pass of the genMatrices loop: triangle t gathered from the
        tables, its face classified, and its floats written. */
    method GenTriangle(t: nat) returns (countNorm: nat, countTex: nat)
      requires Valid() && t < 12
      requires calcCube[..9 * t] == Generated(tables, Position, t)
      requires calcColor[..9 * t] == Generated(tables, Color, t)
      requires calcNorm[..9 * t] == Generated(tables, Normal, t)
      requires calcTex[..6 * t] == Generated(tables, Tex, t)
      modifies calcCube, calcColor, calcNorm, calcTex
      ensures countNorm == 9 * (t + 1) && countTex == 6 * (t + 1)
      ensures calcCube[..countNorm] == Generated(tables, Position, t + 1)
      ensures calcColor[..countNorm] == Generated(tables, Color, t + 1)
      ensures calcNorm[..countNorm] == Generated(tables, Normal, t + 1)
      ensures calcTex[..countTex] == Generated(tables, Tex, t + 1)
    {
      var x := 3 * t;
      var cube, indices, colors := tables.cube, tables.indices, tables.colors;
      var triangle := [cube[indices[x]], cube[indices[x + 1]], cube[indices[x + 2]]];
      var color := [colors[indices[x]], colors[indices[x + 1]], colors[indices[x + 2]]];
      assert triangle == Tri(tables, t) && color == TriColors(tables, t);
      var normal := FaceNormal(tables, triangle);
      var texture := Textures(normal, triangle);
      TriangleStep(tables, t);
      countNorm, countTex := WriteTriangle(9 * t, 6 * t, triangle, color, normal, texture);
    }

    /** The write loops of one triangle: vertices, colours and the normal
        to the three-float arrays, texture coordinates to calcTex. */
    method WriteTriangle(countNorm: nat, countTex: nat, triangle: seq<Vec3>, color: seq<Vec3>,
                         normal: Vec3, texture: seq<Vec2>)
      returns (nextNorm: nat, nextTex: nat)
      requires Valid() && countNorm + 9 <= CalcSize && countTex + 6 <= CalcTexSize
      requires |triangle| == 3 && |color| == 3 && |texture| == 3
      modifies calcCube, calcColor, calcNorm, calcTex
      ensures nextNorm == countNorm + 9 && nextTex == countTex + 6
      ensures calcCube[..nextNorm] == old(calcCube[..countNorm]) + Flats(triangle, 3)
      ensures calcColor[..nextNorm] == old(calcColor[..countNorm]) + Flats(color, 3)
      ensures calcNorm[..nextNorm] == old(calcNorm[..countNorm]) + Flats([normal, normal, normal], 3)
      ensures calcTex[..nextTex] == old(calcTex[..countTex]) + Flats2(texture, 3)
    {
      nextNorm := countNorm;
      nextTex := countTex;
      var z := 0;
      while z < 3
        invariant 0 <= z <= 3 && nextNorm == countNorm + 3 * z && nextTex == countTex + 2 * z
        invariant calcCube[..nextNorm] == old(calcCube[..countNorm]) + Flats(triangle, z)
        invariant calcColor[..nextNorm] == old(calcColor[..countNorm]) + Flats(color, z)
        invariant calcNorm[..nextNorm] == old(calcNorm[..countNorm]) + Flats([normal, normal, normal], z)
        invariant calcTex[..nextTex] == old(calcTex[..countTex]) + Flats2(texture, z)
      {
        ghost var cube, col, norm, tex := calcCube[..nextNorm], calcColor[..nextNorm], calcNorm[..nextNorm], calcTex[..nextTex];
        nextNorm := WriteVertex(nextNorm, triangle[z], color[z], normal);
        nextTex := PutFloats(calcTex, nextTex, Flat2(texture[z]));
        assert calcCube[..nextNorm] == cube + Flat3(triangle[z]);
        assert calcColor[..nextNorm] == col + Flat3(color[z]);
        assert calcNorm[..nextNorm] == norm + Flat3(normal);
        assert calcTex[..nextTex] == tex + Flat2(texture[z]);
        FlatsSnoc(old(calcCube[..countNorm]), triangle, z);
        FlatsSnoc(old(calcColor[..countNorm]), color, z);
        FlatsSnoc(old(calcNorm[..countNorm]), [normal, normal, normal], z);
        Flats2Snoc(old(calcTex[..countTex]), texture, z);
        z := z + 1;
      }
    }

    /** The inner write loop: one vertex's coordinates, colour and normal at
        counter at. */
    method WriteVertex(at: nat, p: Vec3, col: Vec3, normal: Vec3) returns (next: nat)
      requires Valid() && at + 3 <= CalcSize
      modifies calcCube, calcColor, calcNorm
      ensures next == at + 3
      ensures calcCube[..next] == old(calcCube[..at]) + Flat3(p)
      ensures calcColor[..next] == old(calcColor[..at]) + Flat3(col)
      ensures calcNorm[..next] == old(calcNorm[..at]) + Flat3(normal)
    {
      next := at;
      var y := 0;
      while y < 3
        invariant 0 <= y <= 3 && next == at + y
        invariant calcCube[..next] == old(calcCube[..at]) + Flat3(p)[..y]
        invariant calcColor[..next] == old(calcColor[..at]) + Flat3(col)[..y]
        invariant calcNorm[..next] == old(calcNorm[..at]) + Flat3(normal)[..y]
      {
        calcNorm[next] := Comp(normal, y);
        calcCube[next] := Comp(p, y);
        calcColor[next] := Comp(col, y);
        assert calcCube[..next + 1] == calcCube[..next] + [Comp(p, y)];
        assert calcColor[..next + 1] == calcColor[..next] + [Comp(col, y)];
        assert calcNorm[..next + 1] == calcNorm[..next] + [Comp(normal, y)];
        assert Flat3(p)[..y + 1] == Flat3(p)[..y] + [Comp(p, y)];
        assert Flat3(col)[..y + 1] == Flat3(col)[..y] + [Comp(col, y)];
        assert Flat3(normal)[..y + 1] == Flat3(normal)[..y] + [Comp(normal, y)];
        next := next + 1;
        y := y + 1;
      }
      assert Flat3(p)[..3] == Flat3(p) && Flat3(col)[..3] == Flat3(col);
      assert Flat3(normal)[..3] == Flat3(normal);
    }

    /** The scaling loop of genCube: calcCube multiplied by scale in place. */
    method ScaleCube(scale: real)
      requires Valid()
      modifies calcCube
      ensures calcCube[..] == Scaled(old(calcCube[..]), scale)
    {
      var x := 0;
      while x < NumVertices * 3
        invariant 0 <= x <= NumVertices * 3
        invariant forall k :: 0 <= k < x ==> calcCube[k] == old(calcCube[k]) * scale
        invariant forall k :: x <= k < CalcSize ==> calcCube[k] == old(calcCube[k])
      {
        calcCube[x] := calcCube[x] * scale;
        x := x + 1;
      }
      assert forall k :: 0 <= k < CalcSize ==> calcCube[..][k] == Scaled(old(calcCube[..]), scale)[k];
    }

    /** genCube: scales calcCube in place, then interleaves every vertex's
        fields into a fresh buffer with the stride the flags choose. */
    method GenCube(scale: real, colored: bool, normaled: bool, textured: bool)
      returns (ptr: array<real>)
      requires Valid()
      modifies this, calcCube
      ensures calcCube[..] == Scaled(old(calcCube[..]), scale)
      ensures fresh(ptr) && cubeptr == ptr
      ensures ptr.Length == NumVertices * AllocStride(Layout(colored, normaled, textured))
      ensures ptr[..] == Interleaved(Current(), Layout(colored, normaled, textured), NumVertices)
    {
      ScaleCube(scale);
      ptr := Interleave(Current(), Layout(colored, normaled, textured));
      cubeptr := ptr;
    }

    /** genAsteroid: the prototype asteroid's smalltotal points. */
    method GenAsteroid() returns (ptr: array<real>)
      modifies this
      ensures fresh(ptr) && cubeptr == ptr
      ensures ptr[..] == SmallFloats(tables, SmallTotal)
    {
      ptr := Gather(tables);
      cubeptr := ptr;
    }

    /** asteroidSize: the point count of genAsteroid's buffer, a third of
        its floats. */
    function AsteroidSize(): (n: nat)
      ensures 3 * n == |SmallFloats(tables, SmallTotal)|
    {
      SmallTotal
    }
  }
}
