# VSphere Unity glue and test client, modelled in Dafny

VSphere reconstructs a live 3D visual hull of an object from several
cameras. The reconstruction runs in a native plugin. Each frame, the plugin
publishes its model as a flat array of ints: 20 per quad, namely the X, Y and Z of
the quad's four corners followed by the U and V of the same corners. This
project models the integer-only code around that array.

- **MeshLayout** (`mesh_layout.dfy`): the `Update` routine of the Unity component
  `VSphere`.
  - It splits the four vertices of every quad into sub-meshes of at most
    64000 vertices.
  - It decodes each vertex and texture coordinate from its slice of the array.
  - It builds a double-sided triangle index array, 12 indices per quad.
  - All of this is written as methods over arrays with loop counters, as in the
    source. Each method is proved against specification functions:
    `QuadsVertices`, `QuadsUvs`, `TriangleIndices`, `FrameMesh` and `FrameMeshes`.
- **SphereCommands** (`commands.dfy`): the setting strings the component sends to
  the plugin ("Preview type: 3" and the like). The module has a parser that
  reads each one back to the typed command.
- **VSpherePlugin** (`vsphere.dfy`): the component as a class.
  - Its settings fields, property setters and `ApplySettings`.
  - The polygon count.
  - `Update`, which changes nothing while paused or when no new model is
    ready. Otherwise it sends the settings on the first model only and then
    applies the frame to its twelve sub-meshes.
  - `SetInternalData` is modelled as appending to `sentCommands`, a log of the
    strings sent.
- **RootPath** (`root_path.dfy`): `computeRootPath` of the test client. From the
  executable's path, it steps back six folders with `find_last_of("\\/")` and
  appends a backslash.
  - Preconditions do not exclude C++'s size_t/int traffic; the model
    writes it out instead:
    - `npos - 1` narrowed to int is -2, and `0 - 1` is -1;
    - `substr(0, rpos)` with a negative rpos keeps the whole string;
    - a non-negative rpos is clamped to the string's length.
  - `ComputeRootPath` is therefore specified for every path shorter than
    MAX_PATH. The lemmas that locate the k-th and the sixth separator from
    the end (`WalkFindsNth`, `SixthSeparatorFromEnd` and their step lemmas) need that many separators, none of them adjacent.
- **TestClient** (`test_client.dfy`): the test client's read loop over a retrieved
  frame, `quads * (4 * 3 + 8)` ints. It is shown to read exactly the ints the
  Unity decoder uses.

Disabling the preview and then replaying the settings has a consequence
that `ReplayEndsWithStoredVariant` states.
- `ApplySettings` sends "Preview window variant: 0" and then, fourth of
  five, the stored variant. It sends nothing about the variant after that.
- The stored variant is 2 unless changed. The plugin's handler treats
  "Preview window variant: 1" and "Preview window variant: 2" as enabling
  the preview (`VSphere_DLL/Source/Source Files/VSpherePlugin.cpp:295-316`).
- So a preview disabled before the first frame ends up sent as enabled.
- The model keeps the code as written. The handler itself is not part of
  this model.

## Model

| member | source | states |
|---|---|---|
| MeshLayout.SubMeshCount | VSphere/Assets/VSpherePlugin/VSphere.cs:260-262 | The number of sub-meshes is the ceiling of 4 * quadCount / 64000: 64000 n covers every vertex, and 64000 (n - 1) does not. |
| MeshLayout.SubMeshSizeBounds | VSphere/Assets/VSpherePlugin/VSphere.cs:278-280 | Sub-mesh s holds min(64000, 4 * quadCount - 64000 s) vertices. That is between 1 and 64000, and exactly 64000 for every sub-mesh but the last. |
| MeshLayout.NoQuadsNoSubMeshes | VSphere/Assets/VSpherePlugin/VSphere.cs:260-269 | An empty frame uses no sub-mesh, and all twelve sub-meshes end up cleared. |
| MeshLayout.SizesUpToIsPrefix | VSphere/Assets/VSpherePlugin/VSphere.cs:277-306 | The first n sub-meshes together hold min(64000 n, 4 * quadCount) vertices: the value of the vertex counter u after n rounds. |
| MeshLayout.SubMeshSizesSum | VSphere/Assets/VSpherePlugin/VSphere.cs:277-306 | Together, the sub-mesh sizes are exactly the frame's 4 * quadCount vertices. |
| MeshLayout.VertexSlices | VSphere/Assets/VSpherePlugin/VSphere.cs:293-296 | Local vertex 4l + k of a run of quads is corner k of quad first + l. It is made of the ints at 20(first + l) + 3k, + 1 and + 2, in that order. |
| MeshLayout.UvSlices | VSphere/Assets/VSpherePlugin/VSphere.cs:298-301 | The texture coordinate of local vertex 4l + k is made of the ints at 20(first + l) + 12 + 2k and the one after it. |
| MeshLayout.QuadsReadOnlyTheirInts | VSphere/Assets/VSpherePlugin/VSphere.cs:289-305 | What a run of quads decodes to depends only on the ints up to the end of that run. |
| MeshLayout.FrameTriangleCount | VSphere/Assets/VSpherePlugin/VSphere.cs:313-363 | The twelve sub-meshes of a frame draw 4 * quadCount triangles in all: 12 indices, that is 4 triangles, per quad. |
| MeshLayout.FrameMeshesReadOnlyFrame | VSphere/Assets/VSpherePlugin/VSphere.cs:254-363 | The twelve sub-meshes built for a frame depend only on its first 20 * quadCount ints. |
| MeshLayout.ReadQuadVertices | VSphere/Assets/VSpherePlugin/VSphere.cs:293-296 | One quad's four corner reads advance the read position by 12. They extend the decoded vertices by exactly that quad's corners and leave the entries after those four as they were. |
| MeshLayout.ReadQuadUvs | VSphere/Assets/VSpherePlugin/VSphere.cs:298-301 | One quad's four texture-coordinate reads advance the read position by 8. They extend the decoded texture coordinates by exactly that quad's and leave the entries after those four as they were. |
| MeshLayout.ReadQuad | VSphere/Assets/VSpherePlugin/VSphere.cs:293-301 | One round of the inner decode loop reads all 20 ints of a quad. It extends the decoded vertices and texture coordinates by exactly that quad's and leaves the entries after them as they were. |
| MeshLayout.DecodeQuads | VSphere/Assets/VSpherePlugin/VSphere.cs:288-305 | The inner decode loop fills both arrays to their end with the corners and texture coordinates of its quads, in frame order. It moves the read position by 5 ints per vertex and the vertex counter by the array size. |
| MeshLayout.DecodeSubMesh | VSphere/Assets/VSpherePlugin/VSphere.cs:278-306 | One round of the outer decode loop gives sub-mesh s arrays of its size, holding the vertices and texture coordinates of quads 16000 s onward. |
| MeshLayout.DecodeModel | VSphere/Assets/VSpherePlugin/VSphere.cs:254-306 | Decoding a frame consumes exactly 20 * quadCount ints. It yields one vertex array and one texture-coordinate array per sub-mesh, each equal to that sub-mesh's share of the frame. |
| MeshLayout.TriangleAt | VSphere/Assets/VSpherePlugin/VSphere.cs:323-354 | Entries 12q to 12q + 11 of the index array are the twelve indices of quad q, whose local base vertex is 4q. |
| MeshLayout.QuadTrianglesCorners | VSphere/Assets/VSpherePlugin/VSphere.cs:325-340 | Every index written for a quad names one of its four corners. |
| MeshLayout.TriangleIndicesInRange | VSphere/Assets/VSpherePlugin/VSphere.cs:318-354 | Every index of a sub-mesh of n quads lies in [0, 4n): it names a vertex of that sub-mesh. |
| MeshLayout.TriangleIndicesFaces | VSphere/Assets/VSpherePlugin/VSphere.cs:325-340 | Quad q has triangles (4q, 4q+1, 4q+2) and (4q+1, 4q+2, 4q+3). Its other two triangles are these with reversed winding: the back faces. |
| MeshLayout.WriteFrontFaces | VSphere/Assets/VSpherePlugin/VSphere.cs:325-331 | The first six writes of a round append the quad's two front triangles. The entries before and after those six are left as they were. |
| MeshLayout.WriteBackFaces | VSphere/Assets/VSpherePlugin/VSphere.cs:334-340 | The last six writes of a round append the two back triangles. The entries before and after those six are left as they were. |
| MeshLayout.WriteQuadTriangles | VSphere/Assets/VSpherePlugin/VSphere.cs:325-340 | The twelve writes of a round append exactly that quad's indices to the ones already written and leave the entries after them as they were. |
| MeshLayout.BuildTriangles | VSphere/Assets/VSpherePlugin/VSphere.cs:316-354 | The index array of a sub-mesh has 3 * currentCount entries and is written to its end (12 per 4 vertices). It holds the quads' triangles in order, every index in [0, currentCount). |
| MeshLayout.AttachSubMesh | VSphere/Assets/VSpherePlugin/VSphere.cs:316-360 | One round of the triangle pass gives sub-mesh s its vertices, texture coordinates and triangles. It advances the vertex counter by the sub-mesh's size, to 64000 (s + 1) unless it is the last one. |
| MeshLayout.AttachSubMeshes | VSphere/Assets/VSpherePlugin/VSphere.cs:313-363 | Starting from twelve cleared sub-meshes, the triangle pass leaves exactly the meshes of the frame: the first SubMeshCount filled, the rest cleared. |
| TestClient.ReadFrame | VSphere_DLL/VisualStudioProject/VSpherePlugin/DLL_Test/DLL_Test.cpp:138-143 | The client reads exactly the frame's first 20 * quads ints, in order. The sub-meshes the Unity decoder builds from them are the ones it builds from the whole array. |
| SphereCommands.IntToStringRoundTrip | VSphere/Assets/VSpherePlugin/VSphere.cs:436 | Reading back the decimal text of any int, as Int32.ToString writes it, gives that int. |
| SphereCommands.ParseText | VSphere/Assets/VSpherePlugin/VSphere.cs:406-482 | Every command string a setter builds reads back as the setting and value it was built from. |
| SphereCommands.TextInjective | VSphere/Assets/VSpherePlugin/VSphere.cs:406-482 | Two different commands never produce the same string. |
| VSpherePlugin.VSphere.constructor | VSphere/Assets/VSpherePlugin/VSphere.cs:57-78 | A new component has the field initialisers' settings (not paused, surface only, preview on, type 5, variant 2, offset 0). Its settings are not yet applied, nothing has been sent, and the twelve sub-meshes are empty (as after InitializeSubmesh, lines 186-207). |
| VSpherePlugin.VSphere.SetFullRays | VSphere/Assets/VSpherePlugin/VSphere.cs:406-410 | Sets fullRays and sends "Full rays: true" or "Full rays: false" to match. |
| VSpherePlugin.VSphere.SetPaused | VSphere/Assets/VSpherePlugin/VSphere.cs:420-423 | Sets paused and sends nothing. |
| VSpherePlugin.VSphere.SetPreviewType | VSphere/Assets/VSpherePlugin/VSphere.cs:433-437 | Sets previewType and sends "Preview type: " followed by the value. |
| VSpherePlugin.VSphere.SetPreviewWindowOrderOffset | VSphere/Assets/VSpherePlugin/VSphere.cs:447-451 | Sets previewWindowOrderOffset and sends "Preview window order offset: " followed by the value. |
| VSpherePlugin.VSphere.SetPreviewEnabled | VSphere/Assets/VSpherePlugin/VSphere.cs:461-468 | Sets previewEnabled. When disabling it sends variant 0; when enabling it sends the current variant. The stored variant is never changed. |
| VSpherePlugin.VSphere.SetPreviewWindowVariant | VSphere/Assets/VSpherePlugin/VSphere.cs:478-482 | Sets previewWindowVariant and sends "Preview window variant: " followed by the value. |
| VSpherePlugin.VSphere.ApplySettings | VSphere/Assets/VSpherePlugin/VSphere.cs:375-382 | Sends FullRays, PreviewEnabled, PreviewType, PreviewWindowVariant and PreviewWindowOrderOffset, in that order, with their current values. Every setting is left as it was. |
| VSpherePlugin.VSphere.ReplayEndsWithStoredVariant | VSphere/Assets/VSpherePlugin/VSphere.cs:375-382 | The replay has five commands. With the preview disabled, the second is variant 0 and the fourth is the stored variant. The fifth is not a variant command, so the stored variant is the last one sent. |
| VSpherePlugin.VSphere.PolygonCountOfFrame | VSphere/Assets/VSpherePlugin/VSphere.cs:390-393 | Once a frame is shown, its sub-meshes draw 4 * quadCount triangles, and the polygon count the GUI reports is a third of that, rounded down. |
| VSpherePlugin.VSphere.ShowFrame | VSphere/Assets/VSpherePlugin/VSphere.cs:258-363 | After a frame, quadCount is the frame's count. The twelve sub-meshes are exactly FrameMeshes: the first SubMeshCount hold their share of the frame, the others are cleared. |
| VSpherePlugin.VSphere.Update | VSphere/Assets/VSpherePlugin/VSphere.cs:230-372 | While paused, or with no new model, nothing changes. Otherwise the frame is applied as ShowFrame states and settingsApplied becomes true. The settings replay is sent the first time only and the settings themselves never change. |
| VSpherePlugin.TwoFramesSendSettingsOnce | VSphere/Assets/VSpherePlugin/VSphere.cs:238-242 | A new component given two frames sends exactly the five default setting strings, once. |
| RootPath.FindLastOf | VSphere_DLL/VisualStudioProject/VSpherePlugin/DLL_Test/DLL_Test.cpp:179 | `find_last_of("\\/")` returns the index of a separator with none after it, and npos exactly when the string has no separator. |
| RootPath.ComputeRootPath | VSphere_DLL/VisualStudioProject/VSpherePlugin/DLL_Test/DLL_Test.cpp:172-183 | The six-step loop yields RootPathOf(path): a prefix of the module path followed by a single backslash, for every path shorter than MAX_PATH. |
| RootPath.FirstWindowWhole | VSphere_DLL/VisualStudioProject/VSpherePlugin/DLL_Test/DLL_Test.cpp:176-179 | The first search window, substr(0, MAX_PATH), is the whole path. |
| RootPath.WindowShrinks | VSphere_DLL/VisualStudioProject/VSpherePlugin/DLL_Test/DLL_Test.cpp:179 | A separator found at p >= 1 makes the next window [0, p - 1), strictly shorter than the current one. |
| RootPath.WalkFindsNth | VSphere_DLL/VisualStudioProject/VSpherePlugin/DLL_Test/DLL_Test.cpp:174-180 | With no two separators adjacent, step k (k at most the number of separators) has rpos + 1 at the k-th separator from the end. |
| RootPath.SixthSeparatorFromEnd | VSphere_DLL/VisualStudioProject/VSpherePlugin/DLL_Test/DLL_Test.cpp:174-182 | With at least six separators and none adjacent, the result is the path up to the sixth separator from the end, followed by a backslash. |
| RootPath.NoSeparatorsWholePath | VSphere_DLL/VisualStudioProject/VSpherePlugin/DLL_Test/DLL_Test.cpp:176-182 | With no separator in the path, every step wraps round to -2, and the result is the whole path followed by a backslash. |

## Left out

- Float work: the division of coordinates by 1000 and of texture coordinates by the texture size; the normals from `Vector3.Cross`/`Normalize`; `RecalculateBounds`. Coordinates are kept as the plugin's raw ints. `Mathf.CeilToInt(vertCount / 64000f)` and the float `Math.Min` become integer arithmetic. This agrees with the float result: `vertCount` is a multiple of 4 below 2^24, so it is exact in a float. A quotient that is not a whole number is at least 4/64000 away from one, far more than the rounding error of a float quotient below 16.
- Unity objects: Mesh, GameObject, material and texture setup (`Start`, `InitializeSubmesh` beyond the empty meshes). Each sub-mesh is a value holding its three arrays, so aliasing between Unity meshes is not modelled.
- Plugin calls: the `DllImport` functions are not visible.
  - `CheckNewModel` and `StartRetrievingModel` become `Update`'s parameters.
  - `EndRetrievingModel`, `QuitSphere` and `OnApplicationQuit` are not modelled.
  - `SetInternalData` is the append to `sentCommands`.
  - The plugin's own command handler (`VSpherePlugin.cpp`) is not part of this model. `ParseCommand` accepts every int, while the handler accepts only a fixed range.
- The read-backs `nextPreviewType`, `lastPreviewType`, `nextPreviewWindowOrderOffset` and `lastPreviewWindowOrderOffset` (lines 485-507): their new value comes from `GetInternalData`, whose behaviour is not visible.
- The stopwatch timing behind `calcTime` and the `Debug.Log` lines.
- VSpherePlugin.VSphere.Update: when a frame is shown, requires at most 12 sub-meshes. The source has the same limit: beyond it, `sphereMesh[s]` is out of bounds. With that bound, `20 * quadCount` fits in a C# int, so no overflow is modelled.
- VSpherePlugin.VSphere.Update: when a frame is shown, requires the frame array to hold at least `20 * count` ints. The source trusts the plugin's pointer for that.
- MeshLayout.AttachSubMesh: the vertex counter `u` of the triangle pass advances once per sub-mesh by its size, not by 4 per quad. Nothing reads it inside the loop, and it has the same value at every sub-mesh boundary.
- MeshLayout.DecodeQuads, MeshLayout.BuildTriangles: the bodies of the inner loops are factored into helper methods that do the same reads and writes in the same order.
- TestClient.ReadFrame: it collects the ints the loop reads, where the client only touches them. The `printf` calls and the polling loop of `main` are left out.
- RootPath.ComputeRootPath: `GetModuleFileNameA` becomes the parameter, the buffer's text, which is shorter than MAX_PATH. The narrowing of `npos - 1` to int is taken as two's complement, which C++ before C++20 leaves to the implementation.
- GUIControler.cs, EnvironmentControler.cs, Global.cs and GlobalSettings.cs are not part of this model: they are IMGUI layout, scene work on floats and static object lookups.
- The reconstruction engine itself (background model, contours, rays, intersection, worker threads) is not part of this model.
