# astercube: the data routines of an asteroid-field demo

astercube is an OpenGL demo: a camera flies through a field of tumbling
asteroids above a tiled floor, with asset models loaded through Assimp and
textures through FreeImage.  Most of the program is window, driver and file
plumbing.  This project models the deterministic routines inside it and
proves what they promise:

- **MeshBase, MeshTextured, MeshUntextured** (`mesh.dfy`, `meshtex.dfy`,
  `meshvert.dfy`): the mesh classes.  The textured mesh assigns its four
  sampler texture units (diffuse one, diffuse two, specular, binormal) from
  its texture list: first-match and last-match rules, plus a per-mesh dummy
  counter that starts at 500.  It also de-indexes its vertex array for
  instanced drawing.  The untextured mesh reserves four dummy units.  Both
  copy instance matrices for instanced drawing.  The base class stores the
  message string, and its drawing entry points do nothing.
- **ModelLoader** (`model.dfy`): the asset intake of class `Model`:
  - face-index flattening;
  - texture filtering and naming (`directory + "/" + name`, handle > 0);
  - the fixed order of the twelve texture categories;
  - depth-first mesh collection;
  - opacity normalisation and the fatal error on a mesh with fewer than
    three vertices;
  - the two sorts of the asset records;
  - the copy of the caller's record in `Draw`;
  - the partition of the flat instance array between asset types.
- **CreateImage** (`createimage.dfy`): BGRA scanlines become an RGBA byte
  buffer, with colour zeroed where alpha is 0.  Texture arrays concatenate
  buffers, and cube-map faces are loaded in reverse file order.
- **Objects** (`objects.dfy`): the asteroid field (class `Objects`, here
  `Field`):
  - placement of the instances in a cube from random draws;
  - the per-frame step that moves each instance, negates one that leaves
    the cube and swaps the velocities of touching pairs;
  - `randVec`;
  - the asset records appended per asteroid type.
- **AsterTables, AsterObject** (`asterobject_tables.dfy`, `asterobject.dfy`):
  the procedural cube.  Its constant tables are expanded into 36 vertices,
  each triangle is classified onto a face with an axis normal and 0/1
  texture coordinates, and the arrays are interleaved with a stride chosen
  by three flags.  The prototype asteroid is gathered from its point table.
- **Floor** (`terrain.dfy`): the floor square is scaled in place, then laid
  out as 10 by 10 tiles in a 3000-float buffer.
- **CameraState** (`camera.dfy`): the camera's field updates (keyboard,
  mouse, wheel, reset, resize, position and focus), its two constructors,
  and the explicit 4x4 product `multMat4`.
  - The camera's saved home copies (lower-case `position`, `focus`, `front`,
    `yaw`, `pitch`, `width`, `height` in the program) are grouped in one
    field `home`.
- **Smoke** (`smokecloud.dfy`): the particle fill of `initFire`.
- **Common** (`common.dfy`): shared value types, C's `fmod` and
  float-to-int truncation, and `glm::clamp`.

Modelling conventions:

- Coordinates are mathematical reals.
- glm's `translate`, `scale` and `rotate` are kept as terms of the builder
  calls (`Transform`), not evaluated.
- `distance`, `normalize`, `sin`, `cos` and `asin` are fields of a
  `Numerics` value passed in, so nothing is assumed about them.
- `fmod` is C's (quotient truncated toward zero).  Pi is the
  single-precision value of `acos(-1.0f)`.
- The importer's scenes, the decoder's scanlines, the texture handles
  returned by `TextureFromFile` and the random draws are inputs.
- Where the program calls `exit`, the model returns `false` (or `None`) and
  stops.
- Uninitialised members are given some value that no contract relies on.
- Each function is modelled as its own file defines it, not through the
  mismatched cross-class calls.  For example, `processMesh` constructs a
  base `Mesh` and passes it eleven arguments.  The model does not follow
  that call: it advances the unit counter by the four units every `setData`
  reserves, and keeps the data that would be handed over.

## Model

| member | source | states |
|---|---|---|
| MeshBase.Mesh.constructor | assimpopengl/include/mesh.h:110-123 | a fresh mesh is not instanced, has quantity 1, data index 0, no shader, all three triggers armed and the dummy counter at 500 |
| MeshBase.Mesh.SetType | assimpopengl/src/mesh.cpp:64-67 | only the message string changes, to the argument |
| MeshBase.Mesh.GetType | assimpopengl/src/mesh.cpp:69-72 | returns the stored message, so after SetType(v) it returns v |
| MeshBase.Mesh.SetData | assimpopengl/src/mesh.cpp:38-43 | the base textured upload returns startIndex + 4 and changes no field |
| MeshBase.Mesh.Draw | assimpopengl/src/mesh.cpp:52-56 | the base draw issues no binding and changes nothing |
| MeshBase.Mesh.DrawInstanced | assimpopengl/src/mesh.cpp:58-62 | the base instanced draw issues no binding and changes nothing |
| MeshUntextured.ReserveUnitsValues | assimpopengl/src/meshvert.cpp:48-52 | the four units are 2·start + counter .. + 3 in the order diffuse one, diffuse two, specular, binormal; the counter advances by exactly four; only the diffuse count (to 0) changes besides |
| MeshUntextured.ReserveUnitsFresh | assimpopengl/src/meshvert.cpp:48-51 | on a fresh mesh the units are 2·start + 500 .. 503 and the counter ends at 504 |
| MeshUntextured.ReserveUnitsDisjoint | assimpopengl/src/meshvert.cpp:48-51 | the four units are distinct, and a second setData with the same start reserves four units above all of the first four |
| MeshUntextured.MeshVert.constructor | assimpopengl/src/meshvert.cpp:12-16 | a fresh base mesh, not instanced, quantity 1, dummy counter 500, and a white flat colour |
| MeshUntextured.MeshVert.SetData | assimpopengl/src/meshvert.cpp:36-55 | vertices, indices, colour, sizes, instancing flag, quantity and shader are stored unchanged; the instance array gets quantity entries whatever the flag; an instanced mesh records the block index; the four units are reserved; returns startIndex + 4 |
| MeshUntextured.MeshVert.ReserveSlots | assimpopengl/src/meshvert.cpp:48-52 | the four post-increments of the dummy counter set the units to the values of ReserveUnits, and nothing else changes |
| MeshUntextured.MeshVert.SetupMesh | assimpopengl/src/meshvert.cpp:78-121 | an instanced mesh records the uniform block index; nothing else in the model changes |
| MeshUntextured.MeshVert.DrawInstanced | assimpopengl/src/meshvert.cpp:197-200 | requires at least quantity model matrices; the first quantity entries of the instance array become those matrices, the rest and the mesh state are unchanged |
| MeshTextured.FirstOfMeaning | assimpopengl/src/meshtex.cpp:53-97 | FirstOf finds the smallest position of a texture of the class, and finds nothing exactly when no such texture exists |
| MeshTextured.LastOfMeaning | assimpopengl/src/meshtex.cpp:53-97 | LastOf finds the largest position of a texture of the class, and finds nothing exactly when no such texture exists |
| MeshTextured.HasFirst | assimpopengl/src/meshtex.cpp:53-97 | a class is present in the list exactly when its first position exists |
| MeshTextured.ScanDiffuseCounter | assimpopengl/src/meshtex.cpp:61-96 | the diffuse trigger fires at the first diffuse texture, and the counter advances once per texture plus once at that texture |
| MeshTextured.ScanDiffuseNone | assimpopengl/src/meshtex.cpp:61-81 | before any diffuse texture the diffuse fields keep their values |
| MeshTextured.ScanDiffuseFirst | assimpopengl/src/meshtex.cpp:70-78 | the first diffuse texture at position x sets diffuse unit one to start + x, its subscript to x, the diffuse count to 1 and the second flag off, for good |
| MeshTextured.ScanDiffuseSecond | assimpopengl/src/meshtex.cpp:63-74 | diffuse unit two is a dummy right after the first diffuse texture, then each later diffuse texture in turn (count 2), so the last one wins |
| MeshTextured.StepSampler | assimpopengl/src/meshtex.cpp:82-95 | one loop step changes a one-texture sampler only for a texture of its class, by a claim |
| MeshTextured.ScanSampler | assimpopengl/src/meshtex.cpp:82-95 | an armed one-texture sampler is claimed by the first texture of its class (unit start + x, subscript x) and never changes afterwards; unclaimed, it keeps its value |
| MeshTextured.ScanCounts | assimpopengl/src/meshtex.cpp:96 | from any state, each visited texture advances the dummy counter at least once |
| MeshTextured.AllocateDiffuse | assimpopengl/src/meshtex.cpp:61-113 | on a fresh mesh: the first diffuse takes unit one, the last one (if not the first) unit two with count 2, a single diffuse leaves unit two a dummy with count 1, no diffuse makes both units dummies with count 0 and the flag off |
| MeshTextured.AllocateSampler | assimpopengl/src/meshtex.cpp:82-113 | on a fresh mesh the specular (binormal) sampler is set exactly when a "specular" or "shininess" ("height" or "normal") texture exists, to the first one; otherwise it is cleared and gets a dummy unit |
| MeshTextured.AllocateDummies | assimpopengl/src/meshtex.cpp:74-113 | on a fresh mesh the counter ends at its start plus one per texture, one for the first diffuse and one per fallback unit; the fallbacks are the last units handed out |
| MeshTextured.AllocateMonotone | assimpopengl/src/meshtex.cpp:53-113 | whatever the state, the dummy counter never decreases and advances at least once per texture |
| MeshTextured.AllocateSubscripts | assimpopengl/src/meshtex.cpp:53-113 | on a fresh mesh every subscript a draw reads is below the texture count, and every set sampler's unit is start + its subscript |
| MeshTextured.AllocateUnitRanges | assimpopengl/src/meshtex.cpp:53-113 | a unit holding a real texture is start plus the position of a texture of its class; a dummy unit is start plus a counter value at or above its initial value |
| MeshTextured.AllocateDistinct | assimpopengl/src/meshtex.cpp:53-113 | with the counter starting at or above the texture count, the four units are pairwise distinct and each dummy is at or above start + the initial counter |
| MeshTextured.Bindings | assimpopengl/src/meshtex.cpp:250-274 | a draw binds at most four textures, each only when its flag is set, in the order diffuse one, diffuse two, specular, binormal |
| MeshTextured.BindingsShape | assimpopengl/src/meshtex.cpp:250-274 | every binding comes from one of the four samplers whose flag is set, with that sampler's unit and texture |
| MeshTextured.AllocatedBindings | assimpopengl/src/meshtex.cpp:250-274 | after setData on a fresh mesh every texture a draw binds is one of the mesh's own textures, bound to unit start + its position |
| MeshTextured.Gather | assimpopengl/src/meshtex.cpp:204-216 | the de-indexed array has one vertex per index, entry x being the vertex that index x names |
| MeshTextured.GatherIdentity | assimpopengl/src/meshtex.cpp:204-216 | gathering through the identity index list returns the vertices |
| MeshTextured.GatherCompose | assimpopengl/src/meshtex.cpp:204-216 | gathering twice is gathering once through the composed index list |
| MeshTextured.MeshTex.constructor | assimpopengl/src/meshtex.cpp:12-16 | a fresh base mesh: all three triggers armed, dummy counter 500, not instanced, quantity 1 |
| MeshTextured.MeshTex.SetData | assimpopengl/src/meshtex.cpp:36-127 | the fields are stored, the units become Allocate of the previous bookkeeping, an instanced mesh with a positive quantity gets a fresh quantity-entry instance array, an instanced mesh gets the gathered vertices; returns startIndex + 4 |
| MeshTextured.MeshTex.StoreData | assimpopengl/src/meshtex.cpp:38-49 | the field stores, plus the instance array of a positive instanced quantity |
| MeshTextured.MeshTex.AssignSlots | assimpopengl/src/meshtex.cpp:50-113 | the bookkeeping becomes Allocate of its previous value |
| MeshTextured.MeshTex.ScanTexture | assimpopengl/src/meshtex.cpp:55-96 | one iteration of the texture loop is Step of the bookkeeping |
| MeshTextured.MeshTex.FinishSlots | assimpopengl/src/meshtex.cpp:98-113 | the fallback is Finish of the bookkeeping |
| MeshTextured.MeshTex.SetupInstancedMesh | assimpopengl/src/meshtex.cpp:192-235 | requires every index below the vertex count; the de-indexed array holds Gather of vertices and indices |
| MeshTextured.MeshTex.Draw | assimpopengl/src/meshtex.cpp:238-323 | sets the opacity to 1 and returns the bindings of the set samplers; nothing else changes |
| MeshTextured.MeshTex.DrawInstanced | assimpopengl/src/meshtex.cpp:326-456 | copies the first quantity matrices into the instance array, records the block index, sets the opacity to 1 and returns the same bindings as Draw |
| ModelLoader.LastSlash | assimpopengl/src/model.cpp:268 | the position found holds a '/', and no later position does; none exactly when the path has no '/' |
| ModelLoader.DirectorySplit | assimpopengl/src/model.cpp:268 | the directory is a prefix of the path; with a '/', the path is the directory, '/', and a file name without '/' |
| ModelLoader.FlattenPrefix | assimpopengl/src/model.cpp:367-384 | flattening a prefix of the faces gives a prefix of the flattened list |
| ModelLoader.FlattenLayout | assimpopengl/src/model.cpp:367-384 | the index list has one entry per face index, and index j of face f sits at the face's offset plus j |
| ModelLoader.FlattenLength | assimpopengl/src/model.cpp:379 | the flattened length, i.e. indexSize, is the sum of the face sizes |
| ModelLoader.FlattenAt | assimpopengl/src/model.cpp:370-377 | entry Offset(f) + j of the flattened list is index j of face f |
| ModelLoader.FlattenFaces | assimpopengl/src/model.cpp:367-384 | the nested push loop returns the faces' indices concatenated in face order |
| ModelLoader.BuildVertices | assimpopengl/src/model.cpp:448-459 | the vertex loop copies position and normal, with channel-0 texture coordinates when textured and (0, 0) otherwise |
| ModelLoader.KeptMeaning | assimpopengl/src/model.cpp:544-569 | every kept texture has a positive handle, the category's type and path directory + "/" + name of a reference; every reference with a positive handle is kept, in order |
| ModelLoader.KeptAll | assimpopengl/src/model.cpp:561-566 | with every handle positive, nothing is dropped |
| ModelLoader.RankOfCategory | assimpopengl/src/model.cpp:402-425 | the twelve category names are distinct, so each one's rank is its position |
| ModelLoader.GatheredOrder | assimpopengl/src/model.cpp:402-425 | a textured mesh's list holds only loaded textures, grouped by category in the order none, diffuse, specular, ambient, emissive, height, normal, shininess, opacity, displacement, lightmap, unknown |
| ModelLoader.ProcessedFacts | assimpopengl/src/model.cpp:306-541 | fatal exactly below three vertices; otherwise every vertex and the flattened faces are kept, the counter advances by 4, textured opacity is clamped to [0, 1], untextured opacity above 1 becomes 0.7 with (0, 0) texture coordinates and no textures |
| ModelLoader.ProcessedAllAppend | assimpopengl/src/model.cpp:293-297 | processing a + b is processing a, then b from the state a leaves |
| ModelLoader.ProcessedOne | assimpopengl/src/model.cpp:295 | one processed mesh is a one-element run |
| ModelLoader.ProcessedAllLength | assimpopengl/src/model.cpp:293-297 | a run that processed every mesh yields one item per mesh |
| ModelLoader.NodeMeshesCount | assimpopengl/src/model.cpp:284-303 | the depth-first order visits every mesh reference of the subtree exactly once |
| ModelLoader.ChildrenMeshesCount | assimpopengl/src/model.cpp:299-302 | the first k child subtrees contribute exactly their mesh counts |
| ModelLoader.ChildrenSplit | assimpopengl/src/model.cpp:299-302 | the first k subtrees followed by the rest are all the children's meshes |
| ModelLoader.ChildFails | assimpopengl/src/model.cpp:299-302 | a fatal mesh in one child's subtree makes the run over all children fatal |
| ModelLoader.ChildStep | assimpopengl/src/model.cpp:299-302 | a processed child subtree extends the run over the children before it |
| ModelLoader.InsertByKey | assimpopengl/src/model.cpp:229-251 | inserting into a key-sorted list adds exactly the element and keeps it sorted |
| ModelLoader.InsertedSorted | assimpopengl/src/model.cpp:229-251 | an element put after every key at most its own and before every larger key leaves the list sorted |
| ModelLoader.SortByKey | assimpopengl/src/model.cpp:247-251 | the result is a permutation of the input with keys non-decreasing; ties in any order |
| ModelLoader.Model.SortIDs | assimpopengl/src/model.cpp:241-251 | the records become a permutation of themselves with identifiers non-decreasing; nothing else changes |
| ModelLoader.Model.SortDists | assimpopengl/src/model.cpp:222-239 | each distance is the truncated distance to the viewer, and the records become a permutation of the re-measured ones, distances non-increasing; nothing else changes |
| ModelLoader.Model.Draw | assimpopengl/src/model.cpp:109-143 | after sorting by identifier, the caller's matrix, location and gamma for the index are copied; after sorting by distance, every mesh of the record then at the index is drawn once, in order, with its matrix, flag and gamma |
| ModelLoader.SliceFits | assimpopengl/src/model.cpp:176-183 | the slices of earlier assets fit whenever the last one does |
| ModelLoader.SliceOfFit | assimpopengl/src/model.cpp:176-183 | with every slice in range, asset y's slice is the quantity matrices from y · quantity |
| ModelLoader.DrawsSound | assimpopengl/src/model.cpp:156-219 | every instanced draw is of a mesh of an asset with instances, handed exactly that asset's slice and count |
| ModelLoader.DrawsComplete | assimpopengl/src/model.cpp:156-219 | every mesh of every asset with a positive total is drawn with its slice |
| ModelLoader.TexturesUpToZero | assimpopengl/src/model.cpp:213 | the unit counter moves past every texture of every asset, drawn or not: it never decreases, and it stays put only when no mesh has a texture |
| ModelLoader.MeshTexturesZero | assimpopengl/src/model.cpp:213 | the texture count of a prefix of meshes is zero exactly when none of them has a texture |
| ModelLoader.Model.DrawInstanced | assimpopengl/src/model.cpp:156-219 | the draws issued are DrawsUpTo of all assets, the unit counter grows by every visited mesh's texture count, and the last slice is kept |
| ModelLoader.PartitionInstances | assimpopengl/src/model.cpp:174-216 | the asset loop issues DrawsUpTo of the records and returns the texture total and the last asset's meshes and slice |
| ModelLoader.CopyAssetSlice | assimpopengl/src/model.cpp:174-181 | the copy from y · q to y · q + q is asset y's slice |
| ModelLoader.CopySlice | assimpopengl/src/model.cpp:176-179 | the copy loop returns the entries from start up to end, and nothing for an empty range |
| ModelLoader.DrawMeshes | assimpopengl/src/model.cpp:185-214 | each mesh is drawn with the slice when the total is positive, and the texture count grows by every mesh's textures |
| ModelLoader.Model.constructor | assimpopengl/src/model.cpp:10-82 | the start index and quantity stored (-1 for the first constructor), opacity 1, white colour, zero counters, no records, meshes or textures |
| ModelLoader.Model.LoadMaterialTextures | assimpopengl/src/model.cpp:544-569 | returns Kept of the category's references: loaded, typed and named textures, in order |
| ModelLoader.Model.GatherTextures | assimpopengl/src/model.cpp:402-425 | the twelve category loads appended in the fixed category order |
| ModelLoader.Model.ProcessMesh | assimpopengl/src/model.cpp:306-541 | the new loader state and the mesh item are Processed of the previous state: None exactly below three vertices, else the vertices, flattened faces, textures and opacity |
| ModelLoader.Model.ReadMesh | assimpopengl/src/model.cpp:337-398 | the vertex loop, the face loop (skipped without faces) and the material's opacity |
| ModelLoader.Model.StoreTextured | assimpopengl/src/model.cpp:402-440 | the textured branch: the gathered textures, opacity clamped to [0, 1], one more textured mesh |
| ModelLoader.Model.StoreUntextured | assimpopengl/src/model.cpp:479-519 | the untextured branch: the material's diffuse colour or black, no textures, opacity above 1 replaced by 0.7, one more untextured mesh |
| ModelLoader.Model.ProcessNode | assimpopengl/src/model.cpp:284-303 | the meshes appended are the processed NodeMeshes of the subtree in depth-first order, and the run fails exactly when a visited mesh is fatal |
| ModelLoader.Model.ProcessOwn | assimpopengl/src/model.cpp:292-296 | the node's own meshes are processed and appended in order |
| ModelLoader.Model.ProcessChildren | assimpopengl/src/model.cpp:299-302 | each child's subtree is processed and appended in order |
| ModelLoader.Model.ProcessChild | assimpopengl/src/model.cpp:299-302 | one child's subtree extends the run over the children before it, or the whole loop's run fails |
| ModelLoader.Model.LoadModel | assimpopengl/src/model.cpp:255-281 | a missing, incomplete or rootless scene is fatal; otherwise hasTex is cleared, the directory is that of the path and the root is processed |
| ModelLoader.Model.LoadAssets | assimpopengl/src/model.cpp:24-46 | on success there is one record per asset, equal to the given one up to its meshes, every scene was loadable, and the mesh and texture lists are empty |
| CreateImage.Swizzled | assimpopengl/src/createimage.cpp:64-75 | four bytes: (in[2], in[1], in[0], in[3]), with the first three 0 when alpha is 0 |
| CreateImage.RowBytesAt | assimpopengl/src/createimage.cpp:58-78 | byte c of pixel p of a converted scanline is byte c of that pixel swizzled |
| CreateImage.ConvertedLength | assimpopengl/src/createimage.cpp:50-58 | the converted buffer has 4 · width bytes per scanline |
| CreateImage.ConvertedAt | assimpopengl/src/createimage.cpp:55-79 | byte j of scanline y sits at y · 4w + j: scanlines are laid out first to last, with no vertical flip |
| CreateImage.RgbaLength | assimpopengl/src/createimage.cpp:50 | the buffer holds width · height · 4 bytes |
| CreateImage.RgbaLayout | assimpopengl/src/createimage.cpp:55-79 | bytes 4k .. 4k + 3 with k = y · width + p are pixel p of scanline y, swizzled |
| CreateImage.ConvertedPrefix | assimpopengl/src/createimage.cpp:55-79 | the converted prefix of the scanlines is a prefix of the buffer, with room for one more scanline |
| CreateImage.WritePixel | assimpopengl/src/createimage.cpp:64-75 | the four bytes at the counter become the pixel swizzled; the rest of the buffer is unchanged |
| CreateImage.FillRow | assimpopengl/src/createimage.cpp:58-78 | the row's converted bytes are written after the counter, behind the guard against the buffer size |
| CreateImage.FillPixels | assimpopengl/src/createimage.cpp:54-79 | the buffer becomes the RGBA bytes of the picture |
| CreateImage.FillLines | assimpopengl/src/createimage.cpp:54-79 | the scanline loop leaves the buffer holding the converted scanlines, in order |
| CreateImage.ImageLoader.SetImage | assimpopengl/src/createimage.cpp:22-82 | a failed load returns false and changes nothing; a successful one sets width, height, size = width · height · 4 and a fresh buffer of the RGBA bytes |
| CreateImage.ImageLoader.CreateSkyBoxTex | assimpopengl/src/createimage.cpp:127-168 | face i is uploaded from file 5 - i; the first face that fails stops the load with only the faces before it uploaded |
| CreateImage.BuffersAllLoaded | assimpopengl/src/createimage.cpp:181-188 | when every file loads, layer i is file i's own buffer |
| CreateImage.BuffersRepeat | assimpopengl/src/createimage.cpp:183 | a later file that fails to load repeats the layer before it |
| CreateImage.BuffersAt | assimpopengl/src/createimage.cpp:181-188 | layer i is the buffer of the picture current after file i |
| CreateImage.BuffersStep | assimpopengl/src/createimage.cpp:181-188 | one more file appends its current buffer |
| CreateImage.ConcatPrefix | assimpopengl/src/createimage.cpp:176-188 | the concatenation of a prefix of the buffers is a prefix of the whole |
| CreateImage.ConcatAt | assimpopengl/src/createimage.cpp:176-188 | buffer i follows the buffers before it, whatever their sizes |
| CreateImage.ConcatLength | assimpopengl/src/createimage.cpp:176-188 | n buffers of s bytes concatenate to s · n bytes |
| CreateImage.ConcatUniform | assimpopengl/src/createimage.cpp:176-188 | for equal sizes s, buffer i occupies bytes i · s .. (i + 1) · s |
| CreateImage.TexArrayUniform | assimpopengl/src/createimage.cpp:176-193 | when every file loads with s bytes, the array holds s · n bytes and layer i is file i's buffer at i · s |
| CreateImage.ImageLoader.AppendPixels | assimpopengl/src/createimage.cpp:184-187 | appends exactly the current buffer |
| CreateImage.ImageLoader.AppendLayers | assimpopengl/src/createimage.cpp:181-188 | appends the buffers of the files after the first, in order |
| CreateImage.ImageLoader.NextLayer | assimpopengl/src/createimage.cpp:183 | the unchecked load of file i makes its picture current, or keeps the previous one |
| CreateImage.ImageLoader.Create2DTexArray | assimpopengl/src/createimage.cpp:169-209 | when the first file loads, the upload is the concatenation of Buffers of all files; when it fails nothing is uploaded |
| Objects.BounceFacts | src/objects.cpp:270-277 | a collision swaps the two velocities, negates both spins, and keeps the multiset of velocities |
| Objects.CollidedVelocities | src/objects.cpp:267-278 | the collision loop keeps the multiset of velocities |
| Objects.CollidedKept | src/objects.cpp:267-278 | the collision loop keeps every location, size, axis, rotation and spin magnitude |
| Objects.CollidedFrame | src/objects.cpp:267-278 | the collision loop touches only the current instance and those before it |
| Objects.StepAtFacts | src/objects.cpp:260-286 | the instance is moved once (and negated if it left the field), its spin keeps its magnitude and drives the new rotation fmod pi360, its matrix is rebuilt; others keep all but velocity and spin sign; later ones are untouched; the velocity multiset stays |
| Objects.StepsVelocities | src/objects.cpp:245-302 | a step keeps the multiset of velocities |
| Objects.StepsShape | src/objects.cpp:245-302 | every instance keeps its size, axis and spin magnitude |
| Objects.StepsFrame | src/objects.cpp:256-296 | the instances from n on are untouched |
| Objects.StepsStepped | src/objects.cpp:256-296 | each instance below n was moved by its own velocity exactly once, its rotation advanced by its spin (or the reversed one) and wrapped, and its matrix rebuilt |
| Objects.StepKeepsStepped | src/objects.cpp:267-278 | a later bounce does not undo an earlier instance's step |
| Objects.ReflectionMayStayOutside | src/objects.cpp:261-266 | an instance that left the unit cube and is negated can still be outside it |
| Objects.Collide | src/objects.cpp:267-278 | the loop leaves the array as Collided |
| Objects.MoveOne | src/objects.cpp:260-266 | the instance becomes Moved |
| Objects.SpinOne | src/objects.cpp:279-286 | the instance becomes Spun: rotation fmod pi360, matrix rebuilt |
| Objects.StepOne | src/objects.cpp:260-286 | the array becomes StepAt |
| Objects.StepGroup | src/objects.cpp:258-295 | the array becomes Steps up to the end of the group |
| Objects.Field.CalcPosition | src/objects.cpp:245-302 | the instance array becomes Steps over the first Quantity · value instances |
| Objects.Limited | src/objects.cpp:126-149 | the value is clamped: at least the minimum when that is at most the maximum, and never above the maximum |
| Objects.RandVec | src/objects.cpp:326-347 | the loop with its running sign computes RandVecOf of the six draws |
| Objects.RandVecFacts | src/objects.cpp:326-347 | each component has its draw's magnitude and a sign fixed by the parity of the flips before it; for unit draws it lies in (-1, 1) |
| Objects.RandVecParity | src/objects.cpp:330-339 | a second flip cancels the first |
| Objects.SplicedStep | src/objects.cpp:204-210 | placing one more instance extends the prefix |
| Objects.PlaceOne | src/objects.cpp:122-210 | writes the placement at the count, or returns false where the size check exits |
| Objects.PlaceRow | src/objects.cpp:119-226 | a row of limit instances placed from the count on |
| Objects.PlacePlane | src/objects.cpp:117-226 | plane i of the grid placed from i * limit * limit on, true exactly when every instance up to its end has a valid size |
| Objects.PlaceAll | src/objects.cpp:115-228 | limit cubed instances placed in count order, stopping false at the first whose size fails the check |
| Objects.RowFits | src/objects.cpp:115-119 | row j of plane i starts at i · limit² + j · limit, fits in limit³, and starts at 0 only for the first row of the first plane |
| Objects.NotAllSized | src/objects.cpp:179-183 | a failed size among the first n is a failure among the first m ≥ n |
| Objects.PlacementFacts | src/objects.cpp:122-210 | the origin instance sits at the origin; every other one lies inside the field when its limits are ordered; its size is the scaler; its rotation starts at 0; its spin is at most two degrees either way |
| Objects.DrawsNeverExit | src/objects.cpp:174-183 | draws in [0, 1) give sizes in [1, 2), so the exit is never taken |
| Objects.CreatedFacts | src/objects.cpp:98-228 | instance k below limit³ is the placement of block k, the first at the origin, all inside the cube when its half side is not negative; the rest is untouched |
| Objects.Infos | src/objects.cpp:231-242 | one record per asteroid type, with path asteroids[x], gamma 2.3, and matrix and location of instance x |
| Objects.Field.Populate | src/objects.cpp:231-242 | the records are appended as Infos |
| Objects.AppendInfos | src/objects.cpp:231-242 | the record list grows by Infos and the reused item ends as the last filled record |
| Objects.Field.constructor | src/objects.cpp:22-26 | an empty field with the declared instance array |
| Objects.Field.SetScale | src/objects.cpp:32-36 | the float argument is stored truncated in the int member |
| Objects.Field.CreateAsteroids | src/objects.cpp:94-243 | the limits are ± the scale; on success the array is Steps of Created and the records are Infos; false where the size check exits |
| AsterTables.IndicesValid | include/asterobject.h:77-86 | every entry of indices is below 8, the corner count, and there are 36 of them |
| AsterTables.CubeIndicesValid | include/asterobject.h:291-421 | every entry of cubeIndices is below 24, the vertex count of the indexed cube's arrays |
| AsterTables.SmallIndicesValid | include/asterobject.h:92-127 | every entry of smallindices is below 26, the point count, and smalltotal is 12 |
| AsterTables.CalcSizes | include/asterobject.h:69-72 | the calc arrays hold 36 · 3 and 36 · 2 floats |
| AsterTables.TableShapes | include/asterobject.h:272-279 | every corner coordinate is ±0.5, the corners are distinct, and the normals are the six signed unit axes |
| AsterObject.FlatsAt | src/asterobject.cpp:277-286 | float 3v + c is coordinate c of vertex v |
| AsterObject.Flats2At | src/asterobject.cpp:287-291 | float 2v + c is component c of pair v |
| AsterObject.FirstFaceHit | src/asterobject.cpp:198-263 | the first test that holds decides the normal |
| AsterObject.FirstFaceMiss | src/asterobject.cpp:198-263 | the normal is the zero vector exactly when no test holds, one of the normals otherwise |
| AsterObject.NormalsOfTests | src/asterobject.cpp:198-263 | test k picks the unit vector of axis k / 2, pointing to the side it checks |
| AsterObject.FirstFaceFlat | src/asterobject.cpp:198-263 | a nonzero coordinate of the normal is one on which the three vertices agree |
| AsterObject.GenTexture | src/asterobject.cpp:296-359 | each component is exactly 0 or 1, being 1 iff the face's in-plane coordinate is positive |
| AsterObject.JoinSnoc | src/asterobject.cpp:272-292 | joining one more block appends it |
| AsterObject.JoinLength | src/asterobject.cpp:272-292 | n blocks of width w make w · n floats |
| AsterObject.JoinAt | src/asterobject.cpp:272-292 | block t starts where the first t blocks end |
| AsterObject.GeneratedStep | src/asterobject.cpp:179-294 | each triangle appends its block |
| AsterObject.GeneratedAt | src/asterobject.cpp:272-292 | entry j of triangle t's block sits at its offset plus j |
| AsterObject.GeneratedLayout | src/asterobject.cpp:179-294 | calcCube[9t + 3v + c] is coordinate c of corner indices[3t + v], calcColor that of its colour, and calcNorm coordinate c of the triangle's one normal |
| AsterObject.TexBits | src/asterobject.cpp:296-359 | every generated texture coordinate is exactly 0 or 1 |
| AsterObject.TrianglesOnFaces | src/asterobject.cpp:198-263 | each triangle of the header's cube passes test FaceTests[t] and no earlier test, so genMatrices gives it that test's normal |
| AsterObject.CornersOnFaces | src/asterobject.cpp:198-263 | the face check on the header's tables, four triangles at a time |
| AsterObject.EveryFaceClassified | src/asterobject.cpp:198-263 | every triangle gets a unit axis normal, never zero, perpendicular to its face |
| AsterObject.StrideMatches | src/asterobject.cpp:27-58 | each branch allocates exactly one vertex's fields: 11, 9, 8, 8, 6, 6, 5 or 3 floats |
| AsterObject.InterleavedLength | src/asterobject.cpp:59-141 | n vertices take n strides |
| AsterObject.InterleavedAt | src/asterobject.cpp:59-141 | vertex x occupies the floats between the first x and x + 1 vertices, in field order |
| AsterObject.VertexAt | src/asterobject.cpp:59-141 | field k of vertex x sits at x · stride + k: position, colour, normal, texture |
| AsterObject.Scaled | src/asterobject.cpp:23-26 | every float multiplied by the scale |
| AsterObject.ScaledTwice | src/asterobject.cpp:23-26 | two genCube calls compound the scale |
| AsterObject.Interleave | src/asterobject.cpp:27-141 | a fresh buffer of NUM_VERTICES strides holding the interleaved fields |
| AsterObject.PutFloats | src/asterobject.cpp:59-141 | writes the values from the index on and nothing else |
| AsterObject.SmallFloatsAt | src/asterobject.cpp:364-368 | floats 3x .. 3x + 2 are the point smallindices[x] |
| AsterObject.Gather | src/asterobject.cpp:361-375 | a fresh buffer of smalltotal · 3 floats gathered from the point table |
| AsterObject.Cube.constructor | src/asterobject.cpp:10-14 | the arrays hold Generated of all 12 triangles |
| AsterObject.Cube.GenMatrices | src/asterobject.cpp:170-295 | the four arrays become Generated over the 12 triangles |
| AsterObject.Cube.GenTriangle | src/asterobject.cpp:179-294 | triangle t extends each of the four arrays from Generated at t to Generated at t + 1 |
| AsterObject.Cube.WriteTriangle | src/asterobject.cpp:272-292 | one triangle's writes through the counters |
| AsterObject.Cube.WriteVertex | src/asterobject.cpp:277-286 | one vertex's coordinates, colour and normal at the counter |
| AsterObject.Cube.ScaleCube | src/asterobject.cpp:23-26 | calcCube becomes Scaled by the factor, in place |
| AsterObject.Cube.GenCube | src/asterobject.cpp:21-143 | calcCube is scaled in place, and the returned buffer is the interleaving with the flags' stride |
| AsterObject.Cube.GenAsteroid | src/asterobject.cpp:361-375 | a fresh buffer of the smalltotal gathered points |
| AsterObject.Cube.AsteroidSize | src/asterobject.cpp:377-380 | returns smalltotal, 12 |
| Floor.ScaledSquareFacts | src/terrain.cpp:60-65 | each position float is multiplied by k and each texture coordinate kept |
| Floor.Layout | src/terrain.cpp:68-83 | exactly 3000 floats |
| Floor.TileAt | src/terrain.cpp:74-81 | float c of vertex z of a tile sits at 5z + c |
| Floor.ColumnAt | src/terrain.cpp:72-82 | float i of tile j of a column sits at 30j + i |
| Floor.ColumnsAt | src/terrain.cpp:70-83 | float i of column j sits at 300j + i |
| Floor.LayoutEntry | src/terrain.cpp:70-80 | float c of vertex z of tile (x, y) sits at 300(x + 5) + 30(y + 5) + 5z + c, with x and y shifted by size / 5 per tile plus 100, and z and texture copied |
| Floor.TilesAdjacent | src/terrain.cpp:76-77 | tile (x + 1, y) is tile (x, y) plus size / 5 on x |
| Floor.FillTile | src/terrain.cpp:74-81 | writes Tile at the counter |
| Floor.FillColumn | src/terrain.cpp:72-82 | writes Column at the counter |
| Floor.FillLayout | src/terrain.cpp:68-83 | a fresh buffer holding Layout |
| Floor.Terrain.constructor | src/terrain.cpp:22-25 | the header's square with an identity placement |
| Floor.Terrain.ScaleSquare | src/terrain.cpp:60-65 | the square becomes ScaledSquare, in place |
| Floor.Terrain.SetScale | src/terrain.cpp:56-89 | size := value, the square scaled by value / 10, the placement turned a quarter about x and lowered by 99% of value, and the buffer Layout of the scaled square |
| CameraState.ProductEntry | assimpopengl/src/camera.cpp:131-148 | entry [z][x] of the product is the sum over y of two[z][y] · one[y][x] |
| CameraState.ProductIdentity | assimpopengl/src/camera.cpp:131-148 | with an identity argument on either side the product is the other matrix |
| CameraState.MultMat4 | assimpopengl/src/camera.cpp:131-148 | the triple loop returns Product |
| CameraState.KeyedMoves | assimpopengl/src/camera.cpp:233-251 | only position or zoom changes; the move keys shift the position by ±front, ±right or ±worldUp times speed · deltaTime and keep zoom; CLOSER and AWAY change zoom by ∓5 and keep the position |
| CameraState.Opposite | assimpopengl/include/camera.h:28-37 | the opposite key is another key |
| CameraState.KeyedInverse | assimpopengl/src/camera.cpp:233-251 | a key followed by its opposite with the same deltaTime restores the view |
| CameraState.Camera.ProcessKeyboard | assimpopengl/src/camera.cpp:233-259 | the fields become Keyed of the old ones |
| CameraState.ScrolledZoom | assimpopengl/src/camera.cpp:285-303 | AWAY adds and CLOSER subtracts one degree; the result lies in [onedegree, pi90], is the raw value in that band, and is pinned to the nearer end otherwise |
| CameraState.ScrolledInverse | assimpopengl/src/camera.cpp:285-303 | away then closer, or closer then away, restores the zoom away from the bounds; other keys leave it the same |
| CameraState.Camera.ProcessMouseScroll | assimpopengl/src/camera.cpp:285-303 | the fields become Scrolled of the old ones, with onedegree ≤ zoom ≤ pi90 |
| CameraState.TurnedInverse | assimpopengl/src/camera.cpp:261-283 | turning by (x, y) then by (-x, -y) gives back the old yaw and pitch and the front derived from them |
| CameraState.TurnedUnbounded | assimpopengl/src/camera.cpp:263-274 | the discarded clamp bounds nothing: some offset takes the pitch above pi180 |
| CameraState.Camera.ProcessMouseMovement | assimpopengl/src/camera.cpp:261-283 | yaw -= x · sensitivity, pitch += y · sensitivity, then the front and basis are rederived |
| CameraState.ResetFacts | assimpopengl/src/camera.cpp:305-316 | reset is idempotent, and a fresh camera reset is the fresh camera with up as the default world up |
| CameraState.Camera.ResetCamera | assimpopengl/src/camera.cpp:305-316 | position, focus, front, yaw and pitch come back from the saved copies; speed, sensitivity, zoom, up and world up become the constants |
| CameraState.ReplayKeepsHome | assimpopengl/src/camera.cpp:305-316 | no call sequence changes the saved copies |
| CameraState.ResetAfterReplay | assimpopengl/src/camera.cpp:305-316 | a reset after any call sequence equals the reset of the start state, up to right and the viewport |
| CameraState.Camera.ResizeView | assimpopengl/src/camera.cpp:207-211 | only width and height change |
| CameraState.Camera.SetPosition | assimpopengl/src/camera.cpp:150-158 | only the position changes, to the argument |
| CameraState.Camera.SetFocus | assimpopengl/src/camera.cpp:160-169 | the focus is stored and the angles rederived |
| CameraState.DerivationsSettle | assimpopengl/src/camera.cpp:318-382 | deriving the angles and deriving the front are each idempotent; the front derivation makes focus its front |
| CameraState.Camera.GetEulerAngles | assimpopengl/src/camera.cpp:318-349 | the fields become WithEuler of the old ones |
| CameraState.Camera.GetFront | assimpopengl/src/camera.cpp:351-382 | the fields become WithFront of the old ones |
| CameraState.Camera.constructor | assimpopengl/src/camera.cpp:11-37 | the state Looking of size, position and focus, with the home copies saved |
| CameraState.Camera.FromAngles | assimpopengl/src/camera.cpp:39-55 | the state Aimed of size, position, world up, yaw and pitch |
| Smoke.Particle | assimpopengl/src/smokecloud.cpp:61-75 | the radius lies in [0.3, 1] and the lifetime is draw · LIFETIME |
| Smoke.ParticleBounds | assimpopengl/src/smokecloud.cpp:63-74 | for unit draws both angles lie in [0, pi360) and equal the draw times pi360, the radius is half a draw plus 0.3, below 0.8, and the lifetime lies in [0, 200) |
| Smoke.Cloud | assimpopengl/src/smokecloud.cpp:61-75 | one particle per draw, each radius in [0.3, 1] |
| Smoke.CloudBounds | assimpopengl/src/smokecloud.cpp:61-75 | every particle of the cloud keeps the bounds of ParticleBounds |
| Smoke.FillParticles | assimpopengl/src/smokecloud.cpp:61-75 | the array becomes Cloud of the draws |
| Smoke.SmokeCloud.InitFire | assimpopengl/src/smokecloud.cpp:57-87 | all 10000 particles are Cloud of the draws and the colour is white |
| Smoke.SmokeCloud.constructor | assimpopengl/src/smokecloud.cpp:22-34 | the scale matrix by 2, then initFire |
| Common.Trunc | src/objects.cpp:35 | the conversion truncates toward zero: less than 1 away from the value, never farther from 0 |
| Common.FMod | src/objects.cpp:280 | C's fmod for a positive divisor: a non-negative dividend leaves a remainder in [0, divisor), and one already in that range is kept |
| Common.Clamp | assimpopengl/src/model.cpp:436 | for lo ≤ hi the result lies in [lo, hi] and a value already there is kept |

## Left out

- OpenGL calls are left out: buffer, array and texture creation, uploads,
  uniform setters, draw calls and the uniform block lookup.  The model keeps
  the data that would be uploaded; GL's block index is an input.
- Assimp's parsing and FreeImage's decoding are foreign libraries.  Their
  results are inputs: scenes, meshes, faces, materials, BGRA scanlines, and
  texture handles paired with file names.  `TextureFromFile` is not
  modelled beyond the handle it returns.
- Random generation (`mt19937`, `random_device`) is foreign.  The uniform
  draws are input sequences: blocks of twenty per asteroid, six per
  `randVec`, four per smoke particle.
- Floating point is modelled as reals.  `distance`, `normalize` and the
  trigonometry are uninterpreted, and the glm matrix builders are kept as
  terms.  So `getFront` and `getEulerAngles` are compositions of
  uninterpreted numerics, and their angle clamps are left out.
- The `pow` cube root of `createAsteroids` is a float computation.  The
  grid limit is a parameter of `CreateAsteroids`.
- `Camera::getViewMatrix`, `getPerspective`, `missilePosition`,
  `shipPosition` and `reverseDirection` are glm `lookAt`/`perspective`
  and float numerics (`remainder`, `isnan`).  The position and direction
  getters are left out too.
- The clamp calls in `processMouseMovement` are not modelled: their results
  are discarded.  `CameraState.TurnedUnbounded` states the consequence.
- `Model::DrawExplosion`, `sndMaker` and `zeroTime` are left out: an SDL
  audio thread and device I/O.
- The `Model` destructor, `debug`, `printVec3`, `printMat4` and
  `hasTextures` are debug output or accessors.
- The `SmokeCloud` parts other than `initFire` are GL set-up and drawing.
- `Objects::initObjects`, `drawObjects`, `getDirection` and `setSkyBox` are
  GL set-up and drawing, or plain accessors.
- `Terrain::initTerrain` and `drawTerrain` are GL set-up and drawing.
- `AsterObject`'s getters only return the header's tables, which
  `AsterTables` holds.
- createimage.h is not part of this model.  The image loader's fields are
  taken from their uses in createimage.cpp.
- Cross-class calls whose signatures do not match the headers are left
  out.  `processMesh` passes eleven arguments to a base `Mesh`, and the
  `Objects` set-up calls into `Model` do not match either.  Each class is
  modelled as its own file defines it.
- Allocation and leaks are left out: `instanceData` is reallocated per
  `calcPosition` call and never read.  The upload of `MeshVert`'s
  uninitialised `modelData` pointer is left out too.
- Objects.Field.CalcPosition: the `model` argument is unused by the
  program and ignored here.
- ModelLoader.Model.LoadAssets: states the records, the loadability of
  every scene and the cleared lists.  It does not state which meshes each
  record receives, because the per-asset loader state makes the full
  statement too costly.  `ProcessNode` and `LoadModel` state it for one
  asset.
- MeshUntextured.MeshVert.SetData: requires a non-negative quantity, since the
  program's `new mat4[quantity]` fails for a negative one.
- ModelLoader.Model.LoadModel: the `exists` check and the `exit` of the
  first constructor are the model's `false` result.
- CreateImage.ImageLoader.Create2DTexArray: `pixel_data` is allocated for
  a fixed number of bytes.  The model builds the upload as a sequence, so
  the overflow of a later, larger picture is not modelled.
- CameraState.Camera.ResetCamera: `right` and the viewport are not part of
  the saved copies, so a reset keeps them.  This is as in the program.
- Smoke.FillParticles: the four component writes of one particle are one
  `Vec4` store.
- Uninitialised members are given some value that no contract relies on.
  This covers mesh flags, units, subscripts and `isDiffTwo`, and the image
  loader's fields.
- GenTexture with a zero normal: the program returns an uninitialised
  `vec2`.  The model returns (0, 0), and only its use with the
  classification's normals is proved.
