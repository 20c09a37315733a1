/** The asset intake and drawing bookkeeping of the model loader.  The
    importer's scene graph, its meshes and materials, and the texture handles
    the image loader returns are inputs; the loader flattens faces, filters
    and names textures, collects meshes depth first, normalises opacity, sorts
    its asset records and partitions the instance matrices between them. */
module ModelLoader {
  import opened Common

  /** The texture categories, in the order processMesh appends them. */
  const Categories: seq<string> :=
    ["none", "diffuse", "specular", "ambient", "emissive", "height", "normal",
     "shininess", "opacity", "displacement", "lightmap", "unknown"]

  /** The opacity an untextured mesh gets when its material asks for more
      than full opacity. */
  const UntexturedOpacity: real := 0.7

  /** One imported vertex: position, normal and the first texture
      coordinate channel (only x and y are read). */
  datatype AiVertex = AiVertex(position: Vec3, normal: Vec3, uv: Vec2)

  /** One texture reference of a material: the file name the importer
      reports, and the handle the image loader returns for the file
      directory + "/" + name (0 when the image could not be loaded). */
  datatype MatTexture = MatTexture(name: string, id: nat)

  /** A material: its opacity and diffuse colour when the file sets them,
      and its texture references per category, indexed as `Categories`
      (a missing trailing category has no textures). */
  datatype AiMaterial = AiMaterial(
    opacity: Option<real>, diffuse: Option<Vec4>, textures: seq<seq<MatTexture>>)

  /** An imported mesh: its vertices, whether channel 0 has texture
      coordinates, the vertex indices of each face, and its material. */
  datatype AiMesh = AiMesh(
    vertices: seq<AiVertex>, hasTexCoords: bool, faces: seq<seq<nat>>,
    material: AiMaterial)

  /** A scene-graph node: indices of its meshes in the scene, and its children. */
  datatype Node = Node(meshes: seq<nat>, children: seq<Node>)

  /** What the importer returns for a file: the root node (absent on a
      broken file), the scene's meshes and the incomplete flag. */
  datatype Scene = Scene(root: Option<Node>, meshes: seq<AiMesh>, incomplete: bool)

  /** The data a mesh object receives: its message string, opacity,
      vertices, indices, flat colour and instancing parameters. */
  datatype MeshData = MeshData(
    meshType: string, opacity: real, vertices: seq<Vertex>, indices: seq<nat>,
    color: Vec3, instanced: bool, quantity: int)

  /** A processed mesh and its textures (struct MeshInfo). */
  datatype MeshInfo = MeshInfo(mesh: MeshData, textures: seq<Texture>)

  /** One asset record (struct ModelInfo). */
  datatype ModelInfo = ModelInfo(
    path: string, meshes: seq<MeshInfo>, model: Transform, location: Vec3,
    dist: int, idval: int, diffOnly: bool, gamma: real)

  /** An asset record with the member initialisers of the struct. */
  function NewModelInfo(path: string, model: Transform, location: Vec3): ModelInfo
  {
    ModelInfo(path, [], model, location, 0, 0, true, 1.0)
  }

  /** The loader fields that processMesh reads and writes. */
  datatype Loader = Loader(
    opacity: real, colordiff: Vec3, hasTex: bool, startIndex: int,
    texcount: int, vertcount: int, textures: seq<Texture>,
    vertSize: int, indexSize: int)

  datatype MeshResult = MeshResult(st: Loader, item: MeshInfo)
  datatype Loaded = Loaded(st: Loader, items: seq<MeshInfo>)

  /** One draw of a mesh issued by Draw: the mesh, the model matrix, the
      diffuse-only flag and the gamma it is drawn with. */
  datatype MeshDraw = MeshDraw(mesh: MeshData, model: Transform, diffOnly: bool, gamma: real)

  /** One instanced draw issued by DrawInstanced: asset y, mesh x, the
      instance matrices handed over and the instance count. */
  datatype InstancedDraw = InstancedDraw(model: nat, mesh: nat, data: seq<Transform>, count: nat)

  // ---------------------------------------------------------------- paths

  /** The position of the last '/' (find_last_of), if any. */
  function LastSlash(p: string): (r: Option<nat>)
    ensures r.Some? ==> r.value < |p| && p[r.value] == '/'
    ensures r.Some? ==> forall k :: r.value < k < |p| ==> p[k] != '/'
    ensures r.None? ==> forall k :: 0 <= k < |p| ==> p[k] != '/'
  {
    if |p| == 0 then None
    else if p[|p| - 1] == '/' then Some(|p| - 1)
    else LastSlash(p[..|p| - 1])
  }

  /** The directory of an asset path: everything before the last '/', or
      the whole path when it has none (substr with npos). */
  function Directory(path: string): string
  {
    match LastSlash(path)
    case None => path
    case Some(i) => path[..i]
  }

  /** The directory is a prefix of the path; with a '/' in the path, the
      path is the directory, a '/', and a file name without any '/', so a
      texture name is resolved next to the asset file. */
  lemma DirectorySplit(path: string)
    ensures Directory(path) <= path
    ensures (exists k :: 0 <= k < |path| && path[k] == '/') ==>
              exists name :: path == Directory(path) + "/" + name &&
                             forall k :: 0 <= k < |name| ==> name[k] != '/'
    ensures (forall k :: 0 <= k < |path| ==> path[k] != '/') ==> Directory(path) == path
  {
    match LastSlash(path)
    case None =>
    case Some(i) =>
      var name := path[i + 1..];
      assert path == path[..i] + "/" + name;
      assert forall k :: 0 <= k < |name| ==> name[k] == path[i + 1 + k];
  }

  // ---------------------------------------------------------------- faces

  /** The face indices concatenated in face order. */
  function Flatten(faces: seq<seq<nat>>): seq<nat>
  {
    if |faces| == 0 then [] else Flatten(faces[..|faces| - 1]) + faces[|faces| - 1]
  }

  /** Where face f starts in the flattened index list. */
  function Offset(faces: seq<seq<nat>>, f: nat): nat
    requires f <= |faces|
  {
    |Flatten(faces[..f])|
  }

  /** The sum of the face sizes. */
  function IndexCount(faces: seq<seq<nat>>): nat
  {
    if |faces| == 0 then 0 else IndexCount(faces[..|faces| - 1]) + |faces[|faces| - 1]|
  }

  lemma {:induction false} FlattenPrefix(faces: seq<seq<nat>>, f: nat)
    requires f <= |faces|
    ensures Flatten(faces[..f]) <= Flatten(faces)
    decreases |faces|
  {
    if f < |faces| {
      assert faces[..|faces| - 1][..f] == faces[..f];
      FlattenPrefix(faces[..|faces| - 1], f);
    } else {
      assert faces[..f] == faces;
    }
  }

  /** The flattened list has one entry per face index, and index j of face f
      sits at the face's offset plus j. */
  lemma FlattenLayout(faces: seq<seq<nat>>)
    ensures |Flatten(faces)| == IndexCount(faces)
    ensures forall f: nat, j: nat :: f < |faces| && j < |faces[f]| ==> FlatAt(faces, f, j)
  {
    FlattenLength(faces);
    forall f: nat, j: nat | f < |faces| && j < |faces[f]|
      ensures FlatAt(faces, f, j)
    {
      FlattenAt(faces, f, j);
    }
  }

  /** Index j of face f is entry Offset(faces, f) + j of the flattened list. */
  predicate FlatAt(faces: seq<seq<nat>>, f: nat, j: nat)
    requires f < |faces| && j < |faces[f]|
  {
    Offset(faces, f) + j < |Flatten(faces)| &&
    Flatten(faces)[Offset(faces, f) + j] == faces[f][j]
  }

  lemma {:induction false} FlattenLength(faces: seq<seq<nat>>)
    ensures |Flatten(faces)| == IndexCount(faces)
    decreases |faces|
  {
    if |faces| > 0 {
      FlattenLength(faces[..|faces| - 1]);
    }
  }

  lemma {:induction false} FlattenAt(faces: seq<seq<nat>>, f: nat, j: nat)
    requires f < |faces| && j < |faces[f]|
    ensures Offset(faces, f) + j < |Flatten(faces)|
    ensures Flatten(faces)[Offset(faces, f) + j] == faces[f][j]
    decreases |faces|
  {
    var init := faces[..|faces| - 1];
    var last := faces[|faces| - 1];
    assert Flatten(faces) == Flatten(init) + last;
    if f < |faces| - 1 {
      FlattenAt(init, f, j);
      assert faces[..f] == init[..f];
    } else {
      assert faces[..f] == init;
    }
  }

  /** The nested loop of processMesh that pushes every face index. */
  method FlattenFaces(faces: seq<seq<nat>>) returns (indices: seq<nat>)
    ensures indices == Flatten(faces)
  {
    indices := [];
    var i := 0;
    while i < |faces|
      invariant 0 <= i <= |faces|
      invariant indices == Flatten(faces[..i])
    {
      var face := faces[i];
      var j := 0;
      while j < |face|
        invariant 0 <= j <= |face|
        invariant indices == Flatten(faces[..i]) + face[..j]
      {
        indices := indices + [face[j]];
        j := j + 1;
      }
      assert faces[..i + 1][..i] == faces[..i];
      assert face[..j] == face;
      i := i + 1;
    }
    assert faces[..i] == faces;
  }

  // ---------------------------------------------------------------- vertices

  /** A loader vertex: position and normal copied, texture coordinates from
      channel 0 on a textured mesh and (0, 0) otherwise. */
  function ToVertex(v: AiVertex, textured: bool): Vertex
  {
    Vertex(v.position, v.normal, if textured then v.uv else Vec2(0.0, 0.0))
  }

  function Vertices(vs: seq<AiVertex>, textured: bool): (r: seq<Vertex>)
    ensures |r| == |vs|
  {
    seq(|vs|, i requires 0 <= i < |vs| => ToVertex(vs[i], textured))
  }

  /** The vertex loop of processMesh. */
  method BuildVertices(vs: seq<AiVertex>, textured: bool) returns (out: seq<Vertex>)
    ensures |out| == |vs|
    ensures forall i :: 0 <= i < |vs| ==>
              out[i].position == vs[i].position && out[i].normal == vs[i].normal
    ensures forall i :: 0 <= i < |vs| ==>
              out[i].texCoords == if textured then vs[i].uv else Vec2(0.0, 0.0)
    ensures out == Vertices(vs, textured)
  {
    out := [];
    var i := 0;
    while i < |vs|
      invariant 0 <= i <= |vs|
      invariant out == Vertices(vs[..i], textured)
    {
      out := out + [ToVertex(vs[i], textured)];
      i := i + 1;
    }
    assert vs[..i] == vs;
  }

  // ---------------------------------------------------------------- textures

  /** The textures loadMaterialTextures keeps from a category: in order,
      every reference whose handle is positive, typed with the category name
      and with directory + "/" + name as its path. */
  function Kept(entries: seq<MatTexture>, kind: string, dir: string): seq<Texture>
  {
    if |entries| == 0 then []
    else
      var e := entries[|entries| - 1];
      Kept(entries[..|entries| - 1], kind, dir) +
      (if e.id > 0 then [Texture(e.id, kind, dir + "/" + e.name)] else [])
  }

  /** Every kept texture has a positive handle, the category's type and the
      path of a reference of the category; every reference with a positive
      handle is kept; nothing is invented. */
  lemma {:induction false} KeptMeaning(entries: seq<MatTexture>, kind: string, dir: string)
    ensures |Kept(entries, kind, dir)| <= |entries|
    ensures forall t :: t in Kept(entries, kind, dir) ==>
              t.id > 0 && t.kind == kind &&
              exists e :: e in entries && t == Texture(e.id, kind, dir + "/" + e.name)
    ensures forall e :: e in entries && e.id > 0 ==>
              Texture(e.id, kind, dir + "/" + e.name) in Kept(entries, kind, dir)
    decreases |entries|
  {
    if |entries| > 0 {
      var init := entries[..|entries| - 1];
      KeptMeaning(init, kind, dir);
      assert entries == init + [entries[|entries| - 1]];
    }
  }

  /** With every handle positive, nothing is dropped. */
  lemma {:induction false} KeptAll(entries: seq<MatTexture>, kind: string, dir: string)
    requires forall e :: e in entries ==> e.id > 0
    ensures |Kept(entries, kind, dir)| == |entries|
    decreases |entries|
  {
    if |entries| > 0 {
      var init := entries[..|entries| - 1];
      assert forall e :: e in init ==> e in entries;
      KeptAll(init, kind, dir);
    }
  }

  /** The references of category c of a material. */
  function Entries(mat: AiMaterial, c: nat): seq<MatTexture>
  {
    if c < |mat.textures| then mat.textures[c] else []
  }

  /** The texture list of a textured mesh after the first n categories. */
  function Gathered(mat: AiMaterial, dir: string, n: nat): seq<Texture>
    requires n <= |Categories|
  {
    if n == 0 then []
    else Gathered(mat, dir, n - 1) + Kept(Entries(mat, n - 1), Categories[n - 1], dir)
  }

  /** The position of a category name in `Categories`, |Categories| if none. */
  function Rank(kind: string): nat
  {
    RankFrom(kind, 0)
  }

  function RankFrom(kind: string, c: nat): nat
    decreases |Categories| - c
  {
    if c >= |Categories| then |Categories|
    else if Categories[c] == kind then c
    else RankFrom(kind, c + 1)
  }

  /** The category names are distinct, so each one's rank is its position. */
  lemma RankOfCategory(c: nat)
    requires c < |Categories|
    ensures Rank(Categories[c]) == c
  {
    assert Categories[0] == "none" && Categories[1] == "diffuse";
    assert Categories[2] == "specular" && Categories[3] == "ambient";
    assert Categories[4] == "emissive" && Categories[5] == "height";
    assert Categories[6] == "normal" && Categories[7] == "shininess";
    assert Categories[8] == "opacity" && Categories[9] == "displacement";
    assert Categories[10] == "lightmap" && Categories[11] == "unknown";
  }

  /** The gathered list holds only loaded textures of the first n
      categories, grouped by category in the fixed order. */
  lemma {:induction false} GatheredOrder(mat: AiMaterial, dir: string, n: nat)
    requires n <= |Categories|
    ensures forall i :: 0 <= i < |Gathered(mat, dir, n)| ==>
              Gathered(mat, dir, n)[i].id > 0 && Rank(Gathered(mat, dir, n)[i].kind) < n
    ensures forall i, j :: 0 <= i < j < |Gathered(mat, dir, n)| ==>
              Rank(Gathered(mat, dir, n)[i].kind) <= Rank(Gathered(mat, dir, n)[j].kind)
    decreases n
  {
    if n > 0 {
      GatheredOrder(mat, dir, n - 1);
      var g := Gathered(mat, dir, n - 1);
      var k := Kept(Entries(mat, n - 1), Categories[n - 1], dir);
      KeptKinds(Entries(mat, n - 1), Categories[n - 1], dir);
      RankOfCategory(n - 1);
      var all := Gathered(mat, dir, n);
      assert all == g + k;
      forall i | 0 <= i < |all|
        ensures all[i].id > 0 && Rank(all[i].kind) < n
      {
        if i >= |g| {
          assert all[i] == k[i - |g|];
        }
      }
      forall i, j | 0 <= i < j < |all|
        ensures Rank(all[i].kind) <= Rank(all[j].kind)
      {
        if j >= |g| {
          assert all[j] == k[j - |g|];
        }
      }
    }
  }

  /** Every kept texture has a positive handle and the category's type. */
  lemma KeptKinds(entries: seq<MatTexture>, kind: string, dir: string)
    ensures forall i :: 0 <= i < |Kept(entries, kind, dir)| ==>
              Kept(entries, kind, dir)[i].id > 0 && Kept(entries, kind, dir)[i].kind == kind
  {
    var k := Kept(entries, kind, dir);
    KeptMeaning(entries, kind, dir);
    assert forall i :: 0 <= i < |k| ==> k[i] in k;
  }

  // ---------------------------------------------------------------- one mesh

  /** The opacity after reading the material: the material's value when it
      sets one, the previous one otherwise. */
  function MaterialOpacity(mat: AiMaterial, previous: real): real
  {
    if mat.opacity.Some? then mat.opacity.value else previous
  }

  /** The instance count handed to setData: quantity when positive, -1 otherwise. */
  function InstanceCount(quantity: int): int
  {
    if quantity > 0 then quantity else -1
  }

  /** The textured branch, from the state after the common steps. */
  function Textured(pre: Loader, mat: AiMaterial, dir: string, quantity: int,
                    verts: seq<Vertex>, idx: seq<nat>): MeshResult
  {
    var texs := Gathered(mat, dir, |Categories|);
    var o := Clamp(pre.opacity, 0.0, 1.0);
    MeshResult(
      pre.(opacity := o, startIndex := pre.startIndex + 4,
           texcount := pre.texcount + 1, textures := texs),
      MeshInfo(MeshData("Textured", o, verts, idx, pre.colordiff, quantity > 0,
                        InstanceCount(quantity)), texs))
  }

  /** The untextured branch: the material's diffuse colour (black when the
      material sets none) becomes the flat colour. */
  function Untextured(pre: Loader, mat: AiMaterial, quantity: int,
                      verts: seq<Vertex>, idx: seq<nat>): MeshResult
  {
    var c := if mat.diffuse.Some? then mat.diffuse.value else Vec4(0.0, 0.0, 0.0, 0.0);
    var color := Vec3(c.x, c.y, c.z);
    var o := if pre.opacity > 1.0 then UntexturedOpacity else pre.opacity;
    MeshResult(
      pre.(opacity := o, colordiff := color, startIndex := pre.startIndex + 4,
           vertcount := pre.vertcount + 1, textures := []),
      MeshInfo(MeshData("Untextured", o, verts, idx, color, quantity > 0,
                        InstanceCount(quantity)), []))
  }

  /** processMesh on the loader state: None is the fatal error of a mesh
      with fewer than three vertices.  Both branches first reset the sizes
      and texture list, record whether the mesh is textured, and read the
      material's opacity. */
  function Processed(st: Loader, m: AiMesh, dir: string, quantity: int): Option<MeshResult>
  {
    if |m.vertices| < 3 then None
    else
      var verts := Vertices(m.vertices, m.hasTexCoords);
      var idx := Flatten(m.faces);
      var pre := st.(opacity := MaterialOpacity(m.material, st.opacity),
                     hasTex := m.hasTexCoords, textures := [], vertSize := 0,
                     indexSize := |idx|);
      if m.hasTexCoords then Some(Textured(pre, m.material, dir, quantity, verts, idx))
      else Some(Untextured(pre, m.material, quantity, verts, idx))
  }

  /** What processMesh promises: the error exactly below three vertices; a
      processed mesh keeps every vertex and the flattened faces, advances the
      unit counter by four, and has its opacity normalised: clamped to
      [0, 1] when textured, at most 1 (0.7 in place of anything larger) and
      with (0, 0) texture coordinates and no textures when untextured. */
  lemma ProcessedFacts(st: Loader, m: AiMesh, dir: string, quantity: int)
    ensures var r := Processed(st, m, dir, quantity);
            && (r.None? <==> |m.vertices| < 3)
            && (r.Some? ==>
                  && |r.value.item.mesh.vertices| == |m.vertices|
                  && r.value.item.mesh.indices == Flatten(m.faces)
                  && r.value.st.indexSize == |Flatten(m.faces)|
                  && r.value.st.startIndex == st.startIndex + 4
                  && r.value.st.opacity == r.value.item.mesh.opacity
                  && r.value.st.textures == r.value.item.textures
                  && r.value.item.mesh.instanced == (quantity > 0))
    ensures var r := Processed(st, m, dir, quantity);
            r.Some? && m.hasTexCoords ==>
              && 0.0 <= r.value.item.mesh.opacity <= 1.0
              && r.value.item.mesh.meshType == "Textured"
              && (forall t :: t in r.value.item.textures ==> t.id > 0 && Rank(t.kind) < |Categories|)
    ensures var r := Processed(st, m, dir, quantity);
            r.Some? && !m.hasTexCoords ==>
              && r.value.item.mesh.opacity <= 1.0
              && r.value.item.mesh.meshType == "Untextured"
              && r.value.item.textures == []
              && (forall v :: v in r.value.item.mesh.vertices ==> v.texCoords == Vec2(0.0, 0.0))
  {
    if |m.vertices| >= 3 && m.hasTexCoords {
      var g := Gathered(m.material, dir, |Categories|);
      GatheredOrder(m.material, dir, |Categories|);
      assert forall t :: t in g ==> exists i :: 0 <= i < |g| && g[i] == t;
    }
  }

  /** processMesh applied to a list of meshes in order, threading the
      loader state; None as soon as one mesh is fatal. */
  function ProcessedAll(st: Loader, ms: seq<AiMesh>, dir: string, quantity: int): Option<Loaded>
    decreases |ms|
  {
    if |ms| == 0 then Some(Loaded(st, []))
    else
      match Processed(st, ms[0], dir, quantity)
      case None => None
      case Some(r) =>
        match ProcessedAll(r.st, ms[1..], dir, quantity)
        case None => None
        case Some(rest) => Some(Loaded(rest.st, [r.item] + rest.items))
  }

  /** Continue a list run with more meshes. */
  function Then(r: Option<Loaded>, ms: seq<AiMesh>, dir: string, quantity: int): Option<Loaded>
  {
    match r
    case None => None
    case Some(a) =>
      match ProcessedAll(a.st, ms, dir, quantity)
      case None => None
      case Some(b) => Some(Loaded(b.st, a.items + b.items))
  }

  /** Processing a + b is processing a, then b from the state a leaves. */
  lemma {:induction false} ProcessedAllAppend(st: Loader, a: seq<AiMesh>, b: seq<AiMesh>, dir: string, quantity: int)
    ensures ProcessedAll(st, a + b, dir, quantity) == Then(ProcessedAll(st, a, dir, quantity), b, dir, quantity)
    decreases |a|
  {
    if |a| == 0 {
      assert a + b == b;
      match ProcessedAll(st, b, dir, quantity)
      case None =>
      case Some(r) => assert [] + r.items == r.items;
    } else {
      AppendTail(a, b);
      match Processed(st, a[0], dir, quantity)
      case None =>
      case Some(r) =>
        ProcessedAllAppend(r.st, a[1..], b, dir, quantity);
        match ProcessedAll(r.st, a[1..], dir, quantity)
        case None =>
        case Some(x) =>
          match ProcessedAll(x.st, b, dir, quantity)
          case None =>
          case Some(y) => AppendAssoc([r.item], x.items, y.items);
      }
  }

  /** One processed mesh as a one-element run. */
  lemma ProcessedOne(st: Loader, m: AiMesh, dir: string, quantity: int)
    ensures ProcessedAll(st, [m], dir, quantity) ==
              match Processed(st, m, dir, quantity)
              case None => None
              case Some(r) => Some(Loaded(r.st, [r.item]))
  {
    assert [m][1..] == [];
    match Processed(st, m, dir, quantity)
    case None =>
    case Some(r) =>
      assert ProcessedAll(r.st, [], dir, quantity) == Some(Loaded(r.st, []));
      assert [r.item] + [] == [r.item];
  }

  /** A run that processed every mesh yields one item per mesh. */
  lemma {:induction false} ProcessedAllLength(st: Loader, ms: seq<AiMesh>, dir: string, quantity: int)
    ensures ProcessedAll(st, ms, dir, quantity).Some? ==>
              |ProcessedAll(st, ms, dir, quantity).value.items| == |ms|
    ensures ProcessedAll(st, ms, dir, quantity).Some? <==> forall m :: m in ms ==> |m.vertices| >= 3
    decreases |ms|
  {
    if |ms| > 0 {
      match Processed(st, ms[0], dir, quantity)
      case None =>
      case Some(r) =>
        ProcessedAllLength(r.st, ms[1..], dir, quantity);
        assert forall m :: m in ms ==> m == ms[0] || m in ms[1..];
    }
  }

  // ---------------------------------------------------------------- scene graph

  /** Every mesh index of the node and its descendants names a scene mesh. */
  predicate ValidNode(n: Node, meshCount: nat)
    decreases n
  {
    && (forall i :: 0 <= i < |n.meshes| ==> n.meshes[i] < meshCount)
    && (forall c :: c in n.children ==> ValidNode(c, meshCount))
  }

  /** The node's own meshes, in order. */
  function OwnMeshes(n: Node, scene: seq<AiMesh>): seq<AiMesh>
    requires forall i :: 0 <= i < |n.meshes| ==> n.meshes[i] < |scene|
  {
    seq(|n.meshes|, i requires 0 <= i < |n.meshes| => scene[n.meshes[i]])
  }

  /** The meshes processNode visits, depth first: the node's own meshes,
      then each child's subtree in order. */
  function NodeMeshes(n: Node, scene: seq<AiMesh>): seq<AiMesh>
    requires ValidNode(n, |scene|)
    decreases n, 1
  {
    OwnMeshes(n, scene) + ChildrenMeshes(n, scene, |n.children|)
  }

  /** The meshes of the subtrees of the first k children. */
  function ChildrenMeshes(n: Node, scene: seq<AiMesh>, k: nat): seq<AiMesh>
    requires ValidNode(n, |scene|) && k <= |n.children|
    decreases n, 0, k
  {
    if k == 0 then []
    else
      assert n.children[k - 1] in n.children;
      ChildrenMeshes(n, scene, k - 1) + NodeMeshes(n.children[k - 1], scene)
  }

  /** The number of meshes of a subtree. */
  function MeshCount(n: Node): nat
    decreases n, 1
  {
    |n.meshes| + ChildrenCount(n, |n.children|)
  }

  function ChildrenCount(n: Node, k: nat): nat
    requires k <= |n.children|
    decreases n, 0, k
  {
    if k == 0 then 0 else ChildrenCount(n, k - 1) + MeshCount(n.children[k - 1])
  }

  /** The depth-first order visits every mesh reference of the subtree
      exactly once. */
  lemma {:induction false} NodeMeshesCount(n: Node, scene: seq<AiMesh>)
    requires ValidNode(n, |scene|)
    ensures |NodeMeshes(n, scene)| == MeshCount(n)
    decreases n, 1
  {
    ChildrenMeshesCount(n, scene, |n.children|);
  }

  lemma {:induction false} ChildrenMeshesCount(n: Node, scene: seq<AiMesh>, k: nat)
    requires ValidNode(n, |scene|) && k <= |n.children|
    ensures |ChildrenMeshes(n, scene, k)| == ChildrenCount(n, k)
    decreases n, 0, k
  {
    if k > 0 {
      assert n.children[k - 1] in n.children;
      ChildrenMeshesCount(n, scene, k - 1);
      NodeMeshesCount(n.children[k - 1], scene);
    }
  }

  // ---------------------------------------------------------------- sorting

  /** The comparator of sortDists: farther first. */
  predicate CmpDist(a: ModelInfo, b: ModelInfo)
  {
    a.dist > b.dist
  }

  /** The comparator of sortIDs: smaller identifier first. */
  predicate CmpId(a: ModelInfo, b: ModelInfo)
  {
    a.idval < b.idval
  }

  predicate KeySorted(s: seq<ModelInfo>, key: ModelInfo -> int)
  {
    forall i, j :: 0 <= i < j < |s| ==> key(s[i]) <= key(s[j])
  }

  /** Inserts x after every element whose key is at most x's. */
  method InsertByKey(ys: seq<ModelInfo>, x: ModelInfo, key: ModelInfo -> int)
    returns (zs: seq<ModelInfo>)
    requires KeySorted(ys, key)
    ensures multiset(zs) == multiset(ys) + multiset{x}
    ensures KeySorted(zs, key)
  {
    var j := 0;
    while j < |ys| && key(ys[j]) <= key(x)
      invariant 0 <= j <= |ys|
      invariant forall k :: 0 <= k < j ==> key(ys[k]) <= key(x)
    {
      j := j + 1;
    }
    assert forall k :: j <= k < |ys| ==> key(x) < key(ys[k]) by {
      if j < |ys| {
        assert key(x) < key(ys[j]);
      }
    }
    zs := ys[..j] + [x] + ys[j..];
    InsertedElements(ys, x, j);
    InsertedSorted(ys, x, j, key);
  }

  lemma InsertedSorted(ys: seq<ModelInfo>, x: ModelInfo, j: nat, key: ModelInfo -> int)
    requires j <= |ys| && KeySorted(ys, key)
    requires forall k :: 0 <= k < j ==> key(ys[k]) <= key(x)
    requires forall k :: j <= k < |ys| ==> key(x) < key(ys[k])
    ensures KeySorted(ys[..j] + [x] + ys[j..], key)
  {
    var zs := ys[..j] + [x] + ys[j..];
    forall a, b | 0 <= a < b < |zs| ensures key(zs[a]) <= key(zs[b]) {
      if b < j {
        assert zs[a] == ys[a] && zs[b] == ys[b];
      } else if b == j {
        assert zs[a] == ys[a] && zs[b] == x;
      } else if a < j {
        assert zs[a] == ys[a] && zs[b] == ys[b - 1];
      } else if a == j {
        assert zs[a] == x && zs[b] == ys[b - 1];
      } else {
        assert zs[a] == ys[a - 1] && zs[b] == ys[b - 1];
      }
    }
  }

  /** A sort by an integer key, smallest first; ties in any order. */
  method SortByKey(xs: seq<ModelInfo>, key: ModelInfo -> int) returns (ys: seq<ModelInfo>)
    ensures multiset(ys) == multiset(xs)
    ensures KeySorted(ys, key)
  {
    ys := [];
    var n := 0;
    while n < |xs|
      invariant 0 <= n <= |xs|
      invariant multiset(ys) == multiset(xs[..n])
      invariant KeySorted(ys, key)
    {
      ys := InsertByKey(ys, xs[n], key);
      assert xs[..n + 1] == xs[..n] + [xs[n]];
      n := n + 1;
    }
    assert xs[..n] == xs;
  }

  /** A record with its distance to the viewer recomputed: the float
      distance converted to the int field by truncation. */
  function WithDist(m: ModelInfo, viewPos: Vec3, num: Numerics): ModelInfo
  {
    m.(dist := Trunc(num.distance(m.location, viewPos)))
  }

  function Measured(s: seq<ModelInfo>, viewPos: Vec3, num: Numerics): (r: seq<ModelInfo>)
    ensures |r| == |s|
  {
    seq(|s|, i requires 0 <= i < |s| => WithDist(s[i], viewPos, num))
  }

  /** The record copy of Draw: model matrix, location and gamma of the
      caller's record. */
  function Copied(m: ModelInfo, from: ModelInfo): ModelInfo
  {
    m.(model := from.model, location := from.location, gamma := from.gamma)
  }

  // ---------------------------------------------------------------- instancing

  /** Asset y's share of the flat instance array: quantity matrices from
      y * quantity, none when quantity is not positive (or the array is too
      short, which DrawInstanced excludes). */
  function Slice(data: seq<Transform>, y: nat, q: int): seq<Transform>
  {
    if q > 0 && 0 <= Start(y, q) && Start(y, q) + q <= |data| then data[Start(y, q) .. Start(y, q) + q] else []
  }

  /** Where asset y's slice begins: y * quantity. */
  function Start(y: nat, q: int): int
  {
    y * q
  }

  /** Slices of earlier assets fit whenever the last one does. */
  lemma SliceFits(y: nat, n: nat, q: int)
    requires y < n && q > 0
    ensures 0 <= y * q && y * q + q <= n * q
  {
    assert y * q + q == (y + 1) * q;
    MulMono(0, y, q);
    MulMono(y + 1, n, q);
  }

  /** The instance array holds a slice for each of count assets. */
  predicate Fits(count: nat, q: int, data: seq<Transform>)
  {
    q <= 0 || count * q <= |data|
  }

  /** The draws issued for asset y's first upTo meshes: one per mesh, only
      when the asset has instances. */
  function ModelDraws(y: nat, slice: seq<Transform>, total: nat, upTo: nat): seq<InstancedDraw>
  {
    if total > 0 then seq(upTo, x requires 0 <= x < upTo => InstancedDraw(y, x, slice, total)) else []
  }

  /** The draws of the first n assets, asset by asset. */
  function DrawsUpTo(infos: seq<ModelInfo>, data: seq<Transform>, totals: seq<nat>, q: int, n: nat): seq<InstancedDraw>
    requires n <= |infos| <= |totals|
  {
    if n == 0 then []
    else
      DrawsUpTo(infos, data, totals, q, n - 1) +
      ModelDraws(n - 1, Slice(data, n - 1, q), totals[n - 1], |infos[n - 1].meshes|)
  }

  /** Draw d is mesh d.mesh of an asset d.model below n that has instances,
      handed exactly that asset's slice and total. */
  predicate Issued(infos: seq<ModelInfo>, data: seq<Transform>, totals: seq<nat>, q: int, n: nat,
                   d: InstancedDraw)
    requires n <= |infos| <= |totals|
  {
    && d.model < n && d.mesh < |infos[d.model].meshes| && totals[d.model] > 0
    && d.data == Slice(data, d.model, q) && d.count == totals[d.model]
  }

  /** Every draw issued is mesh x of an asset y with instances, handed
      exactly asset y's slice. */
  lemma {:induction false} DrawsSound(infos: seq<ModelInfo>, data: seq<Transform>, totals: seq<nat>, q: int, n: nat)
    requires n <= |infos| <= |totals|
    ensures forall d :: d in DrawsUpTo(infos, data, totals, q, n) ==> Issued(infos, data, totals, q, n, d)
    decreases n
  {
    if n > 0 {
      DrawsSound(infos, data, totals, q, n - 1);
      var before := DrawsUpTo(infos, data, totals, q, n - 1);
      var slice := Slice(data, n - 1, q);
      var m := ModelDraws(n - 1, slice, totals[n - 1], |infos[n - 1].meshes|);
      ModelDrawsSound(n - 1, slice, totals[n - 1], |infos[n - 1].meshes|);
      assert DrawsUpTo(infos, data, totals, q, n) == before + m;
      forall d: InstancedDraw | d in before + m
        ensures Issued(infos, data, totals, q, n, d)
      {
        if d in before {
          assert Issued(infos, data, totals, q, n - 1, d);
        } else {
          assert d in m;
        }
      }
    }
  }

  /** The draws of one asset are its meshes, in range, with its slice. */
  lemma ModelDrawsSound(y: nat, slice: seq<Transform>, total: nat, upTo: nat)
    ensures forall d :: d in ModelDraws(y, slice, total, upTo) ==>
              d.model == y && d.mesh < upTo && total > 0 && d.data == slice && d.count == total
  {
    var m := ModelDraws(y, slice, total, upTo);
    assert forall d :: d in m ==> exists x :: 0 <= x < |m| && m[x] == d;
  }

  /** Every mesh x of every asset y with instances is drawn, with asset y's
      slice. */
  lemma {:induction false} DrawsComplete(infos: seq<ModelInfo>, data: seq<Transform>, totals: seq<nat>, q: int, n: nat)
    requires n <= |infos| <= |totals|
    ensures forall y, x :: 0 <= y < n && 0 <= x < |infos[y].meshes| && totals[y] > 0 ==>
              InstancedDraw(y, x, Slice(data, y, q), totals[y]) in DrawsUpTo(infos, data, totals, q, n)
    decreases n
  {
    forall y, x | 0 <= y < n && 0 <= x < |infos[y].meshes| && totals[y] > 0
      ensures InstancedDraw(y, x, Slice(data, y, q), totals[y]) in DrawsUpTo(infos, data, totals, q, n)
    {
      DrawnAt(infos, data, totals, q, n, y, x);
    }
  }

  /** Mesh x of asset y, which has instances, is among the draws of the
      first n assets whenever y is. */
  lemma {:induction false} DrawnAt(infos: seq<ModelInfo>, data: seq<Transform>, totals: seq<nat>, q: int,
                                   n: nat, y: nat, x: nat)
    requires y < n <= |infos| <= |totals| && x < |infos[y].meshes| && totals[y] > 0
    ensures InstancedDraw(y, x, Slice(data, y, q), totals[y]) in DrawsUpTo(infos, data, totals, q, n)
    decreases n
  {
    var d := InstancedDraw(y, x, Slice(data, y, q), totals[y]);
    var before := DrawsUpTo(infos, data, totals, q, n - 1);
    var m := ModelDraws(n - 1, Slice(data, n - 1, q), totals[n - 1], |infos[n - 1].meshes|);
    assert DrawsUpTo(infos, data, totals, q, n) == before + m;
    if y == n - 1 {
      ModelDrawn(y, x, Slice(data, y, q), totals[y], |infos[y].meshes|);
      assert d in m;
    } else {
      DrawnAt(infos, data, totals, q, n - 1, y, x);
      assert d in before;
    }
  }

  /** Mesh x of an asset with instances has its draw. */
  lemma ModelDrawn(y: nat, x: nat, slice: seq<Transform>, total: nat, upTo: nat)
    requires x < upTo && total > 0
    ensures InstancedDraw(y, x, slice, total) in ModelDraws(y, slice, total, upTo)
  {
    var m := ModelDraws(y, slice, total, upTo);
    assert m[x] == InstancedDraw(y, x, slice, total);
  }

  /** With every slice in range, asset y's slice is the quantity matrices
      from y * quantity. */
  lemma SliceOfFit(data: seq<Transform>, y: nat, count: nat, q: int)
    requires y < count && q > 0 && Fits(count, q, data)
    ensures 0 <= y * q && y * q + q <= |data|
    ensures Slice(data, y, q) == data[y * q .. y * q + q]
  {
    SliceFits(y, count, q);
  }

  /** The number of textures of the first k meshes. */
  function MeshTextures(ms: seq<MeshInfo>, k: nat): nat
    requires k <= |ms|
  {
    if k == 0 then 0 else MeshTextures(ms, k - 1) + |ms[k - 1].textures|
  }

  /** The number of textures of every mesh of the first n assets. */
  function TexturesUpTo(infos: seq<ModelInfo>, n: nat): nat
    requires n <= |infos|
  {
    if n == 0 then 0 else TexturesUpTo(infos, n - 1) + MeshTextures(infos[n - 1].meshes, |infos[n - 1].meshes|)
  }

  /** The unit counter moves past every texture of every asset, drawn or
      not: it never decreases and stays put only when no mesh has a texture. */
  lemma {:induction false} TexturesUpToZero(infos: seq<ModelInfo>, n: nat)
    requires n <= |infos|
    ensures TexturesUpTo(infos, n) == 0 <==>
              forall y, x :: 0 <= y < n && 0 <= x < |infos[y].meshes| ==> infos[y].meshes[x].textures == []
    decreases n
  {
    if n > 0 {
      TexturesUpToZero(infos, n - 1);
      MeshTexturesZero(infos[n - 1].meshes, |infos[n - 1].meshes|);
    }
  }

  lemma {:induction false} MeshTexturesZero(ms: seq<MeshInfo>, k: nat)
    requires k <= |ms|
    ensures MeshTextures(ms, k) == 0 <==> forall x :: 0 <= x < k ==> ms[x].textures == []
    decreases k
  {
    if k > 0 {
      MeshTexturesZero(ms, k - 1);
    }
  }

  // ---------------------------------------------------------------- the loader

  /** A snapshot of the loader's fields. */
  datatype ModelState = ModelState(
    loader: Loader, directory: string, meshes: seq<MeshInfo>,
    modelinfo: seq<ModelInfo>, quantity: int, modelData: seq<Transform>)

  class Model {
    var modelinfo: seq<ModelInfo>
    var meshes: seq<MeshInfo>
    var textures: seq<Texture>
    var startIndex: int
    var vertSize: int
    var indexSize: int
    var hasTex: bool
    var directory: string
    var texcount: int
    var vertcount: int
    var opacity: real
    var quantity: int
    var modelData: seq<Transform>
    var colordiff: Vec3

    function LoaderState(): Loader
      reads this
    {
      Loader(opacity, colordiff, hasTex, startIndex, texcount, vertcount,
             textures, vertSize, indexSize)
    }

    function State(): ModelState
      reads this
    {
      ModelState(LoaderState(), directory, meshes, modelinfo, quantity, modelData)
    }

    /** The member initialisers and the fields the constructors set; the
        constructor without a quantity passes -1.  The asset loop of the
        constructors is LoadAssets. */
    constructor(startIndex: int, quantity: int)
      ensures this.startIndex == startIndex && this.quantity == quantity
      ensures opacity == 1.0 && colordiff == Vec3(1.0, 1.0, 1.0)
      ensures texcount == 0 && vertcount == 0
      ensures modelinfo == [] && meshes == [] && textures == []
    {
      this.startIndex := startIndex;
      this.quantity := quantity;
      opacity := 1.0;
      colordiff := Vec3(1.0, 1.0, 1.0);
      texcount := 0;
      vertcount := 0;
      modelinfo := [];
      meshes := [];
      textures := [];
      modelData := [];
      directory := [];
    }

    /** loadMaterialTextures: the loop that keeps the loaded references of
        one category. */
    method LoadMaterialTextures(entries: seq<MatTexture>, kind: string)
      returns (texs: seq<Texture>)
      ensures texs == Kept(entries, kind, directory)
    {
      texs := [];
      var i := 0;
      while i < |entries|
        invariant 0 <= i <= |entries|
        invariant texs == Kept(entries[..i], kind, directory)
      {
        var filename := directory + "/" + entries[i].name;
        var id := entries[i].id;
        if id > 0 {
          texs := texs + [Texture(id, kind, filename)];
        }
        assert entries[..i + 1][..i] == entries[..i];
        i := i + 1;
      }
      assert entries[..i] == entries;
    }

    /** The twelve category loads of a textured mesh, appended in order. */
    method GatherTextures(mat: AiMaterial) returns (texs: seq<Texture>)
      ensures texs == Gathered(mat, directory, |Categories|)
    {
      texs := [];
      var c := 0;
      while c < |Categories|
        invariant 0 <= c <= |Categories|
        invariant texs == Gathered(mat, directory, c)
      {
        var maps := LoadMaterialTextures(Entries(mat, c), Categories[c]);
        texs := texs + maps;
        c := c + 1;
      }
    }

    /** processMesh: builds the vertices, flattens the faces, reads the
        material and hands the data on; the unit counter advances by the
        four units every setData reserves.  None is the fatal error. */
    method ProcessMesh(m: AiMesh) returns (item: Option<MeshInfo>)
      modifies this
      ensures directory == old(directory) && quantity == old(quantity)
      ensures meshes == old(meshes) && modelinfo == old(modelinfo) && modelData == old(modelData)
      ensures match Processed(old(LoaderState()), m, directory, quantity)
              case None => item.None?
              case Some(r) => item == Some(r.item) && LoaderState() == r.st
    {
      indexSize := 0;
      vertSize := 0;
      textures := [];
      hasTex := m.hasTexCoords;
      if |m.vertices| < 3 {
        item := None;
        return;
      }
      var verts, idx := ReadMesh(m);
      assert LoaderState() ==
             old(LoaderState()).(opacity := MaterialOpacity(m.material, old(opacity)),
                                 hasTex := m.hasTexCoords, textures := [], vertSize := 0,
                                 indexSize := |idx|);
      if m.hasTexCoords {
        item := StoreTextured(m.material, verts, idx);
      } else {
        item := StoreUntextured(m.material, verts, idx);
      }
    }

    /** The common steps of processMesh on a mesh with enough vertices:
        the vertex loop, the face loop (skipped without faces) and the
        material's opacity. */
    method ReadMesh(m: AiMesh) returns (verts: seq<Vertex>, idx: seq<nat>)
      modifies this
      ensures verts == Vertices(m.vertices, m.hasTexCoords) && idx == Flatten(m.faces)
      ensures State() == old(State()).(loader := old(LoaderState()).(
                indexSize := if |m.faces| > 0 then |idx| else old(indexSize),
                opacity := MaterialOpacity(m.material, old(opacity))))
    {
      verts := BuildVertices(m.vertices, m.hasTexCoords);
      idx := [];
      if |m.faces| > 0 {
        idx := FlattenFaces(m.faces);
        indexSize := |idx|;
      }
      if m.material.opacity.Some? {
        opacity := m.material.opacity.value;
      }
    }

    /** The textured branch of processMesh after the common steps. */
    method StoreTextured(mat: AiMaterial, verts: seq<Vertex>, idx: seq<nat>)
      returns (item: Option<MeshInfo>)
      modifies this
      ensures directory == old(directory) && quantity == old(quantity)
      ensures meshes == old(meshes) && modelinfo == old(modelinfo) && modelData == old(modelData)
      ensures var r := Textured(old(LoaderState()), mat, directory, quantity, verts, idx);
              item == Some(r.item) && LoaderState() == r.st
    {
      textures := GatherTextures(mat);
      startIndex := startIndex + 4;
      opacity := Clamp(opacity, 0.0, 1.0);
      texcount := texcount + 1;
      item := Some(MeshInfo(MeshData("Textured", opacity, verts, idx, colordiff,
                                     quantity > 0, InstanceCount(quantity)), textures));
    }

    /** The untextured branch of processMesh after the common steps. */
    method StoreUntextured(mat: AiMaterial, verts: seq<Vertex>, idx: seq<nat>)
      returns (item: Option<MeshInfo>)
      modifies this
      ensures directory == old(directory) && quantity == old(quantity)
      ensures meshes == old(meshes) && modelinfo == old(modelinfo) && modelData == old(modelData)
      ensures var r := Untextured(old(LoaderState()), mat, quantity, verts, idx);
              item == Some(r.item) && LoaderState() == r.st
    {
      var color := Vec4(0.0, 0.0, 0.0, 0.0);
      if mat.diffuse.Some? {
        color := mat.diffuse.value;
      }
      colordiff := Vec3(color.x, color.y, color.z);
      textures := [];
      startIndex := startIndex + 4;
      if opacity > 1.0 {
        opacity := UntexturedOpacity;
      }
      vertcount := vertcount + 1;
      item := Some(MeshInfo(MeshData("Untextured", opacity, verts, idx, colordiff,
                                     quantity > 0, InstanceCount(quantity)), []));
    }

    /** processNode: the node's meshes in order, then each child's subtree,
        each processed mesh appended to `meshes`.  The run fails exactly
        when a visited mesh is fatal. */
    method ProcessNode(node: Node, scene: seq<AiMesh>) returns (ok: bool)
      requires ValidNode(node, |scene|)
      modifies this
      decreases node, 2
      ensures directory == old(directory) && quantity == old(quantity)
      ensures modelinfo == old(modelinfo) && modelData == old(modelData)
      ensures var r := ProcessedAll(old(LoaderState()), NodeMeshes(node, scene), directory, quantity);
              (ok <==> r.Some?) &&
              (ok ==> LoaderState() == r.value.st && meshes == old(meshes) + r.value.items)
    {
      ghost var st0 := LoaderState();
      ghost var own := OwnMeshes(node, scene);
      ghost var rest := ChildrenMeshes(node, scene, |node.children|);
      ProcessedAllAppend(st0, own, rest, directory, quantity);
      ok := ProcessOwn(node, scene);
      if !ok {
        return;
      }
      ok := ProcessChildren(node, scene);
    }

    /** The mesh loop of processNode. */
    method ProcessOwn(node: Node, scene: seq<AiMesh>) returns (ok: bool)
      requires forall i :: 0 <= i < |node.meshes| ==> node.meshes[i] < |scene|
      modifies this
      ensures directory == old(directory) && quantity == old(quantity)
      ensures modelinfo == old(modelinfo) && modelData == old(modelData)
      ensures var r := ProcessedAll(old(LoaderState()), OwnMeshes(node, scene), directory, quantity);
              (ok <==> r.Some?) &&
              (ok ==> LoaderState() == r.value.st && meshes == old(meshes) + r.value.items)
    {
      ghost var st0 := LoaderState();
      ghost var m0 := meshes;
      ghost var own := OwnMeshes(node, scene);
      ghost var items: seq<MeshInfo> := [];
      var i := 0;
      assert own[..0] == [];
      while i < |node.meshes|
        invariant 0 <= i <= |node.meshes|
        invariant directory == old(directory) && quantity == old(quantity)
        invariant modelinfo == old(modelinfo) && modelData == old(modelData)
        invariant meshes == m0 + items
        invariant ProcessedAll(st0, own[..i], directory, quantity) == Some(Loaded(LoaderState(), items))
      {
        ghost var pre := LoaderState();
        var item := ProcessMesh(scene[node.meshes[i]]);
        ProcessedAllAppend(st0, own[..i], [own[i]], directory, quantity);
        ProcessedOne(pre, own[i], directory, quantity);
        assert own[..i + 1] == own[..i] + [own[i]];
        if item.None? {
          ProcessedAllAppend(st0, own[..i + 1], own[i + 1..], directory, quantity);
          assert own[..i + 1] + own[i + 1..] == own;
          ok := false;
          return;
        }
        AppendAssoc(m0, items, [item.value]);
        meshes := meshes + [item.value];
        items := items + [item.value];
        i := i + 1;
      }
      assert own[..i] == own;
      ok := true;
    }

    /** The child loop of processNode. */
    method ProcessChildren(node: Node, scene: seq<AiMesh>) returns (ok: bool)
      requires ValidNode(node, |scene|)
      modifies this
      decreases node, 1
      ensures directory == old(directory) && quantity == old(quantity)
      ensures modelinfo == old(modelinfo) && modelData == old(modelData)
      ensures var r := ProcessedAll(old(LoaderState()), ChildrenMeshes(node, scene, |node.children|),
                                    directory, quantity);
              (ok <==> r.Some?) &&
              (ok ==> LoaderState() == r.value.st && meshes == old(meshes) + r.value.items)
    {
      ghost var st0 := LoaderState();
      ghost var m0 := meshes;
      ghost var items: seq<MeshInfo> := [];
      var c := 0;
      while c < |node.children|
        invariant 0 <= c <= |node.children|
        invariant directory == old(directory) && quantity == old(quantity)
        invariant modelinfo == old(modelinfo) && modelData == old(modelData)
        invariant meshes == m0 + items
        invariant ProcessedAll(st0, ChildrenMeshes(node, scene, c), directory, quantity) ==
                  Some(Loaded(LoaderState(), items))
      {
        ghost var more;
        ok, more := ProcessChild(node, scene, c, st0, m0, items);
        if !ok {
          return;
        }
        items := items + more;
        c := c + 1;
      }
      ok := true;
    }

    /** Child c of the child loop: its subtree is processed after the
        children before it, or the whole loop fails. */
    method ProcessChild(node: Node, scene: seq<AiMesh>, c: nat, ghost st0: Loader,
                        ghost m0: seq<MeshInfo>, ghost items: seq<MeshInfo>)
      returns (ok: bool, ghost more: seq<MeshInfo>)
      requires ValidNode(node, |scene|) && c < |node.children| && meshes == m0 + items
      requires ProcessedAll(st0, ChildrenMeshes(node, scene, c), directory, quantity) ==
               Some(Loaded(LoaderState(), items))
      modifies this
      decreases node, 0
      ensures directory == old(directory) && quantity == old(quantity)
      ensures modelinfo == old(modelinfo) && modelData == old(modelData)
      ensures !ok ==> ProcessedAll(st0, ChildrenMeshes(node, scene, |node.children|), directory, quantity).None?
      ensures ok ==> meshes == m0 + (items + more) &&
                     ProcessedAll(st0, ChildrenMeshes(node, scene, c + 1), directory, quantity) ==
                     Some(Loaded(LoaderState(), items + more))
    {
      ghost var pre := LoaderState();
      var child := node.children[c];
      assert child in node.children;
      ok := ProcessNode(child, scene);
      ghost var r := ProcessedAll(pre, NodeMeshes(child, scene), directory, quantity);
      if !ok {
        ChildFails(st0, node, scene, c, directory, quantity, pre, items);
        more := [];
        return;
      }
      more := r.value.items;
      ChildStep(st0, node, scene, c, directory, quantity, pre, items, LoaderState(), more);
      AppendAssoc(m0, items, more);
    }

    /** loadModel: a missing, broken or incomplete scene is fatal;
        otherwise the directory is taken from the path and the root node is
        processed.  `hasTex` is cleared first. */
    method LoadModel(path: string, scene: Option<Scene>) returns (ok: bool)
      requires scene.Some? && scene.value.root.Some? ==>
                 ValidNode(scene.value.root.value, |scene.value.meshes|)
      modifies this
      ensures quantity == old(quantity) && modelinfo == old(modelinfo) && modelData == old(modelData)
      ensures !(scene.Some? && !scene.value.incomplete && scene.value.root.Some?) ==> !ok
      ensures scene.Some? && !scene.value.incomplete && scene.value.root.Some? ==>
                directory == Directory(path) &&
                var r := ProcessedAll(old(LoaderState()).(hasTex := false),
                                      NodeMeshes(scene.value.root.value, scene.value.meshes),
                                      Directory(path), quantity);
                (ok <==> r.Some?) &&
                (ok ==> LoaderState() == r.value.st && meshes == old(meshes) + r.value.items)
    {
      hasTex := false;
      if scene.None? || scene.value.incomplete || scene.value.root.None? {
        ok := false;
        return;
      }
      directory := Directory(path);
      ok := ProcessNode(scene.value.root.value, scene.value.meshes);
    }

    /** The asset loop of the constructors: each asset's meshes are loaded
        from its scene into its record, and the mesh and texture lists are
        cleared after each; the counters restart per asset.  A fatal load
        stops the program. */
    method LoadAssets(infos: seq<ModelInfo>, scenes: seq<Option<Scene>>) returns (ok: bool)
      requires |scenes| == |infos|
      requires forall x :: 0 <= x < |scenes| && scenes[x].Some? && scenes[x].value.root.Some? ==>
                 ValidNode(scenes[x].value.root.value, |scenes[x].value.meshes|)
      modifies this
      ensures ok ==> |modelinfo| == |infos| && meshes == [] && textures == []
      ensures ok ==> forall x :: 0 <= x < |infos| ==>
                modelinfo[x].(meshes := infos[x].meshes) == infos[x]
      ensures ok ==> forall x :: 0 <= x < |infos| ==>
                scenes[x].Some? && !scenes[x].value.incomplete && scenes[x].value.root.Some?
    {
      var list := infos;
      var x := 0;
      while x < |infos|
        invariant 0 <= x <= |infos| && |list| == |infos|
        invariant forall k :: 0 <= k < |infos| ==> list[k].(meshes := infos[k].meshes) == infos[k]
        invariant forall k :: 0 <= k < x ==>
                    scenes[k].Some? && !scenes[k].value.incomplete && scenes[k].value.root.Some?
      {
        texcount := 0;
        vertcount := 0;
        ok := LoadModel(list[x].path, scenes[x]);
        if !ok {
          return;
        }
        list := list[x := list[x].(meshes := meshes)];
        meshes := [];
        textures := [];
        x := x + 1;
      }
      modelinfo := list;
      meshes := [];
      textures := [];
      ok := true;
    }

    /** sortIDs: a permutation of the records with identifiers ascending. */
    method SortIDs()
      modifies this
      ensures State() == old(State()).(modelinfo := modelinfo)
      ensures |modelinfo| == |old(modelinfo)|
      ensures multiset(modelinfo) == multiset(old(modelinfo))
      ensures forall i, j :: 0 <= i < j < |modelinfo| ==> !CmpId(modelinfo[j], modelinfo[i])
    {
      modelinfo := SortByKey(modelinfo, (m: ModelInfo) => m.idval);
      assert |multiset(modelinfo)| == |modelinfo|;
    }

    /** sortDists: every record's distance to the viewer is recomputed, then
        the records are permuted farthest first. */
    method SortDists(viewPos: Vec3, num: Numerics)
      modifies this
      ensures State() == old(State()).(modelinfo := modelinfo)
      ensures |modelinfo| == |old(modelinfo)|
      ensures multiset(modelinfo) == multiset(Measured(old(modelinfo), viewPos, num))
      ensures forall i, j :: 0 <= i < j < |modelinfo| ==> !CmpDist(modelinfo[j], modelinfo[i])
      ensures forall i :: 0 <= i < |modelinfo| ==>
                modelinfo[i].dist == Trunc(num.distance(modelinfo[i].location, viewPos))
    {
      ghost var m0 := modelinfo;
      var x := 0;
      while x < |modelinfo|
        modifies this
        invariant 0 <= x <= |modelinfo| == |m0|
        invariant State() == old(State()).(modelinfo := modelinfo)
        invariant forall k :: 0 <= k < x ==> modelinfo[k] == WithDist(m0[k], viewPos, num)
        invariant forall k :: x <= k < |m0| ==> modelinfo[k] == m0[k]
      {
        var location := modelinfo[x].location;
        modelinfo := modelinfo[x := modelinfo[x].(dist := Trunc(num.distance(location, viewPos)))];
        x := x + 1;
      }
      assert modelinfo == Measured(m0, viewPos, num);
      ghost var measured := modelinfo;
      modelinfo := SortByKey(modelinfo, (m: ModelInfo) => -m.dist);
      assert |multiset(modelinfo)| == |modelinfo|;
      forall i | 0 <= i < |modelinfo|
        ensures modelinfo[i].dist == Trunc(num.distance(modelinfo[i].location, viewPos))
      {
        assert modelinfo[i] in multiset(measured);
      }
    }

    /** Draw: the records are sorted by identifier, the caller's matrix,
        location and gamma for `index` are copied into the record now at
        `index`, the records are sorted by distance, and every mesh of the
        record then at `index` is drawn with its matrix, flag and gamma.
        `byId` is the order after the first sort. */
    method Draw(index: int, model: seq<ModelInfo>, viewPos: Vec3, num: Numerics)
      returns (draws: seq<MeshDraw>, ghost byId: seq<ModelInfo>)
      requires 0 <= index < |modelinfo| && index < |model|
      modifies this
      ensures |byId| == |old(modelinfo)| == |modelinfo|
      ensures multiset(byId) == multiset(old(modelinfo))
      ensures forall i, j :: 0 <= i < j < |byId| ==> !CmpId(byId[j], byId[i])
      ensures multiset(modelinfo) ==
                multiset(Measured(byId[index := Copied(byId[index], model[index])], viewPos, num))
      ensures forall i, j :: 0 <= i < j < |modelinfo| ==> !CmpDist(modelinfo[j], modelinfo[i])
      ensures State() == old(State()).(modelinfo := modelinfo, meshes := meshes)
      ensures meshes == modelinfo[index].meshes
      ensures |draws| == |meshes|
      ensures forall x :: 0 <= x < |draws| ==>
                draws[x] == MeshDraw(meshes[x].mesh, modelinfo[index].model,
                                     modelinfo[index].diffOnly, modelinfo[index].gamma)
    {
      SortIDs();
      byId := modelinfo;
      modelinfo := modelinfo[index := Copied(modelinfo[index], model[index])];
      SortDists(viewPos, num);
      assert |multiset(modelinfo)| == |modelinfo|;
      meshes := modelinfo[index].meshes;
      var info := modelinfo[index];
      draws := [];
      var x := 0;
      while x < |meshes|
        invariant 0 <= x <= |meshes|
        invariant |draws| == x
        invariant forall k :: 0 <= k < x ==>
                    draws[k] == MeshDraw(meshes[k].mesh, info.model, info.diffOnly, info.gamma)
      {
        draws := draws + [MeshDraw(meshes[x].mesh, info.model, info.diffOnly, info.gamma)];
        x := x + 1;
      }
    }

    /** DrawInstanced: asset y is handed the matrices y * quantity up to
        (y + 1) * quantity of the flat instance array; each of its meshes is
        drawn when the asset has instances, and the unit counter moves past
        every mesh's textures either way. */
    method DrawInstanced(instanceData: seq<Transform>, totals: seq<nat>)
      returns (draws: seq<InstancedDraw>)
      requires |modelinfo| <= |totals| && Fits(|modelinfo|, quantity, instanceData)
      modifies this
      ensures State() == old(State()).(loader := old(LoaderState()).(startIndex := startIndex),
                                       meshes := meshes, modelData := modelData)
      ensures draws == DrawsUpTo(modelinfo, instanceData, totals, quantity, |modelinfo|)
      ensures startIndex == old(startIndex) + TexturesUpTo(modelinfo, |modelinfo|)
      ensures |modelinfo| > 0 ==>
                (meshes == modelinfo[|modelinfo| - 1].meshes &&
                 modelData == Slice(instanceData, |modelinfo| - 1, quantity))
      ensures |modelinfo| == 0 ==> meshes == old(meshes) && modelData == old(modelData)
    {
      var added, ms, md;
      draws, added, ms, md := PartitionInstances(modelinfo, instanceData, totals, quantity,
                                                 meshes, modelData);
      startIndex := startIndex + added;
      meshes := ms;
      modelData := md;
    }
  }

  /** The asset loop of DrawInstanced: for each asset y, the instance
      matrices from y * q to y * q + q are copied out, each of its meshes is
      drawn when the asset has instances, and its texture count is added;
      ms and md are the last asset's meshes and slice (the given ones when
      there is no asset). */
  method PartitionInstances(infos: seq<ModelInfo>, data: seq<Transform>, totals: seq<nat>,
                            q: int, ms0: seq<MeshInfo>, md0: seq<Transform>)
    returns (draws: seq<InstancedDraw>, added: nat, ms: seq<MeshInfo>, md: seq<Transform>)
    requires |infos| <= |totals| && Fits(|infos|, q, data)
    ensures draws == DrawsUpTo(infos, data, totals, q, |infos|)
    ensures added == TexturesUpTo(infos, |infos|)
    ensures |infos| > 0 ==> ms == infos[|infos| - 1].meshes && md == Slice(data, |infos| - 1, q)
    ensures |infos| == 0 ==> ms == ms0 && md == md0
  {
    draws := [];
    added := 0;
    ms := ms0;
    md := md0;
    var start := 0;
    var end := q;
    var y := 0;
    while y < |infos|
      invariant 0 <= y <= |infos|
      invariant start == y * q && end == start + q
      invariant draws == DrawsUpTo(infos, data, totals, q, y)
      invariant added == TexturesUpTo(infos, y)
      invariant y > 0 ==> ms == infos[y - 1].meshes && md == Slice(data, y - 1, q)
      invariant y == 0 ==> ms == ms0 && md == md0
    {
      md := CopyAssetSlice(data, y, |infos|, q, start, end);
      MulStep(y, q);
      start := start + q;
      end := end + q;
      ms := infos[y].meshes;
      var drawn := DrawMeshes(y, ms, md, totals[y]);
      draws := draws + drawn;
      added := added + MeshTextures(ms, |ms|);
      y := y + 1;
    }
  }

  /** The copy of asset y's slice, from start = y * q up to end = start + q. */
  method CopyAssetSlice(data: seq<Transform>, y: nat, count: nat, q: int, start: int, end: int)
    returns (md: seq<Transform>)
    requires y < count && Fits(count, q, data)
    requires start == y * q && end == start + q
    ensures md == Slice(data, y, q)
  {
    if q > 0 {
      SliceOfFit(data, y, count, q);
    }
    md := CopySlice(data, start, end);
  }

  /** What remains of the children of n from child k on. */
  function ChildrenRest(n: Node, scene: seq<AiMesh>, k: nat): seq<AiMesh>
    requires ValidNode(n, |scene|) && k <= |n.children|
    decreases |n.children| - k
  {
    if k == |n.children| then []
    else
      assert n.children[k] in n.children;
      NodeMeshes(n.children[k], scene) + ChildrenRest(n, scene, k + 1)
  }

  /** The first k subtrees followed by the rest are all of them. */
  lemma {:induction false} ChildrenSplit(n: Node, scene: seq<AiMesh>, k: nat)
    requires ValidNode(n, |scene|) && k <= |n.children|
    ensures ChildrenMeshes(n, scene, k) + ChildrenRest(n, scene, k) ==
            ChildrenMeshes(n, scene, |n.children|)
    decreases |n.children| - k
  {
    if k < |n.children| {
      ChildrenSplit(n, scene, k + 1);
      assert n.children[k] in n.children;
      assert ChildrenMeshes(n, scene, k + 1) ==
             ChildrenMeshes(n, scene, k) + NodeMeshes(n.children[k], scene);
    }
  }

  /** A fatal mesh in child c's subtree makes the run over all children fatal. */
  lemma ChildFails(st: Loader, n: Node, scene: seq<AiMesh>, c: nat, dir: string, quantity: int,
                   pre: Loader, items: seq<MeshInfo>)
    requires ValidNode(n, |scene|) && c < |n.children|
    requires ProcessedAll(st, ChildrenMeshes(n, scene, c), dir, quantity) == Some(Loaded(pre, items))
    requires n.children[c] in n.children
    requires ProcessedAll(pre, NodeMeshes(n.children[c], scene), dir, quantity).None?
    ensures ProcessedAll(st, ChildrenMeshes(n, scene, |n.children|), dir, quantity).None?
  {
    ProcessedAllAppend(st, ChildrenMeshes(n, scene, c), NodeMeshes(n.children[c], scene), dir, quantity);
    ProcessedAllAppend(st, ChildrenMeshes(n, scene, c + 1), ChildrenRest(n, scene, c + 1), dir, quantity);
    ChildrenSplit(n, scene, c + 1);
  }

  /** A processed child subtree extends the run over the children before it. */
  lemma ChildStep(st: Loader, n: Node, scene: seq<AiMesh>, c: nat, dir: string, quantity: int,
                  pre: Loader, items: seq<MeshInfo>, post: Loader, more: seq<MeshInfo>)
    requires ValidNode(n, |scene|) && c < |n.children|
    requires ProcessedAll(st, ChildrenMeshes(n, scene, c), dir, quantity) == Some(Loaded(pre, items))
    requires n.children[c] in n.children
    requires ProcessedAll(pre, NodeMeshes(n.children[c], scene), dir, quantity) == Some(Loaded(post, more))
    ensures ProcessedAll(st, ChildrenMeshes(n, scene, c + 1), dir, quantity) == Some(Loaded(post, items + more))
  {
    ProcessedAllAppend(st, ChildrenMeshes(n, scene, c), NodeMeshes(n.children[c], scene), dir, quantity);
  }

  /** The copy loop that rebuilds modelData from start up to end. */
  method CopySlice(data: seq<Transform>, start: int, end: int) returns (out: seq<Transform>)
    requires start < end ==> 0 <= start && end <= |data|
    ensures start < end ==> out == data[start..end]
    ensures start >= end ==> out == []
  {
    out := [];
    var x := start;
    while x < end
      invariant start < end ==> start <= x <= end && out == data[start..x]
      invariant start >= end ==> out == []
    {
      out := out + [data[x]];
      x := x + 1;
    }
  }

  /** The mesh loop of DrawInstanced for asset y. */
  method DrawMeshes(y: nat, ms: seq<MeshInfo>, slice: seq<Transform>, total: nat)
    returns (draws: seq<InstancedDraw>)
    ensures draws == ModelDraws(y, slice, total, |ms|)
  {
    draws := [];
    var x := 0;
    while x < |ms|
      invariant 0 <= x <= |ms|
      invariant draws == ModelDraws(y, slice, total, x)
    {
      if total > 0 {
        draws := draws + [InstancedDraw(y, x, slice, total)];
      }
      x := x + 1;
    }
  }
}
