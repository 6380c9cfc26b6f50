# FBX exporter core, modelled in Dafny

The exporter turns a flat, C-compatible description of a scene into calls on the Autodesk FBX
SDK, and then has the SDK write the file. The description holds:

- a tree of objects, each with a name, a local 4×4 matrix, an optional mesh and material slots;
- a material table;
- an ascii/binary flag;
- a unit scale.

Two iterations of the exporter are modelled side by side. They share most of their code:

- `exporter/src/io.cpp` is the current one. It creates Lambert materials before the node
  walk. Each polygon carries its material index, and each node's material slots are bound to
  the scene's materials.
- `exporter/src/HalFbxExporter.cxx` is the older one. It creates shader materials after the
  walk, with forty properties defined one by one through `define_property`. Its polygons have
  no material index, and it has no slot binding.

The datatype `MeshBuild.Version` (`Current` / `Legacy`) selects the iteration wherever the two
differ.

The SDK is modelled by the class `Engine.Scene`. Every SDK call the exporter makes is appended
to the scene's `log` as an `Engine.Event`. Every created node, mesh or material receives the
next handle from the counter `created`. Three answers of the SDK are fields fixed when the
scene is built, so every property holds for every possible answer:

- `initSucceeds`, the answer of `FbxExporter::Initialize`;
- `accepts`, the property names for which `AddProperty` yields a valid property;
- `multT`, `FbxAMatrix::MultT`.

Each imperative routine of the source is a method with the same loops. Its postcondition states
the exact call sequence it appends, as a function of its inputs. Lemmas then prove the
meaning of those sequences:

- the polygon calls decode back into the polygons;
- the offset encoding round-trips;
- a filled attribute channel holds its input in order;
- every slot binds the material it points at;
- every session ends with the manager's destruction, with `Export` just before it exactly on
  the path that returns true.

Modules, one per concern:

- `Values`: vectors, the affine matrix and `fix_rot_m`/`fix_scale_m`, and sequence lemmas.
- `Engine`: SDK calls and the `Scene` class.
- `Codec`: the run-length polygon offset table (`polys`, `indices`) and the call stream it
  becomes.
- `Attributes`: `set_normal` and `set_uv`.
- `Transforms`: `fix_coord` and `fix_normal_rot`.
- `Normals`: `vnrm_from_pnrm` (`vertex_normal_from_poly_normal` in the older file).
- `MeshBuild`: `create_mesh`.
- `Slots`: material-slot lookup, for export and for import.
- `Materials`: `define_property` and the Lambert `create_material`.
- `ShaderMaterial`: the older `create_material`.
- `Walker`: `create_node_recursive`.
- `Session`: `export_fbx`.

## Model

| member | source | states |
|---|---|---|
| Values.FixRotM | exporter/src/io.cpp:568-574 | the result carries the Z-up to Y-up quaternion as its rotation and keeps the input's scaling (same function at HalFbxExporter.cxx:337-343) |
| Values.FixScaleM | exporter/src/io.cpp:576-582 | the result scales every axis by unit_scale × 100 (metres to the engine's centimetres) and keeps the input's rotation |
| Engine.Scene.InitializeExporter | exporter/src/io.cpp:127-128 | logs the Initialize call with the path and writer and answers the SDK's verdict; nothing is created |
| Engine.Scene.AddPropertyTo | exporter/src/io.cpp:486-488 | logs the AddProperty call; the property is valid exactly when the SDK accepts its name |
| Codec.ParseEmit | exporter/src/io.cpp:317-328 | the polygon call stream reads back as exactly the polygons emitted: one BeginPolygon/AddPolygon…/EndPolygon group per polygon, in order, with its material tag and corners |
| Codec.EncodeDecode | exporter/src/io.cpp:319-322 | laying any polygon list's corners end to end and recording each start offset gives a table that stays in bounds and decodes back to the same list, empty polygons included |
| Codec.DecodeEncode | exporter/src/io.cpp:319-322 | for a table that starts at 0, never decreases and stays inside the index buffer, the decoded polygons re-encode to exactly the same indices and offsets |
| Codec.InvertedRangeIsEmpty | exporter/src/io.cpp:325-326 | an offset above the next one is not rejected: that polygon is emitted with no corners and keeps its material tag |
| MeshBuild.CreateMesh | exporter/src/io.cpp:304-343 | takes the next handle; converts the caller's vertex buffer in place by the coordinate matrix; logs mesh creation, the control points (the converted buffer), the polygon stream of the decoded table, then the normal and UV elements |
| MeshBuild.EmitPolygons | exporter/src/io.cpp:317-328 | the polygon loop appends exactly the call stream of the polygons the offset table decodes to |
| MeshBuild.EmitPolygon | exporter/src/io.cpp:319-327 | one iteration appends BeginPolygon with the material, the corners of [curr, next) (none when next ≤ curr), then EndPolygon |
| MeshBuild.AddCorners | exporter/src/io.cpp:325-326 | appends one AddPolygon per index of [curr, next) in order, and nothing for an empty or inverted range |
| MeshBuild.AddNormalSets | exporter/src/io.cpp:330-334 | one normal element per set, in order, each filled with index_count normals of its set |
| MeshBuild.AddUvSets | exporter/src/io.cpp:336-340 | one UV element per set, named after it, each filled with index_count coordinates of its set |
| MeshBuild.LegacyPolygonsDropMaterials | exporter/src/HalFbxExporter.cxx:150-161 | the older exporter emits the same polygons with the same corners, differing only in the missing material index, and needs no material array |
| Attributes.ChannelHoldsInputInOrder | exporter/src/io.cpp:491-515 | the values a filled channel appends are exactly its input, in order: none dropped, duplicated or reordered |
| Attributes.FillChannel | exporter/src/io.cpp:494-502 | logs the name, by-polygon-vertex mapping and direct reference, then appends the first n values in order |
| Attributes.SetNormal | exporter/src/io.cpp:491-503 | fills the element with the set's name and its first input_count normals (same at HalFbxExporter.cxx:262-274) |
| Attributes.SetUv | exporter/src/io.cpp:505-515 | fills the element with the set's name and its first input_count texture coordinates (same at HalFbxExporter.cxx:276-286) |
| Transforms.FixCoord | exporter/src/io.cpp:556-566 | the first vertex_count positions become the rotation-then-unit-scale matrix applied to them; every later entry is unchanged (same at HalFbxExporter.cxx:325-335) |
| Transforms.FixNormalRot | exporter/src/io.cpp:544-554 | the first normal_count normals become the rotation-only matrix applied to them; every later entry is unchanged (same at HalFbxExporter.cxx:314-323) |
| Transforms.NormalsRotateLikePositions | exporter/src/io.cpp:544-566 | how the two matrices are built: the position matrix and the normal matrix share the Z-up to Y-up rotation, the position matrix scales by unit_scale * 100 and the normal matrix by 1. It says nothing about the converted normals themselves |
| Normals.VertexNormalsFromPolygonNormals | exporter/src/io.cpp:517-542 | writes exactly index_count corner normals, each polygon's range painted in turn with its rotated normal over zero defaults; the rest of the output buffer is untouched |
| Normals.CoveredCornerGetsPolygonNormal | exporter/src/io.cpp:523-537 | with a never-decreasing table, every corner of polygon i holds polygon i's normal, rotated Z-up to Y-up |
| Normals.UncoveredCornerKeepsDefault | exporter/src/io.cpp:521-537 | a corner outside every polygon's range keeps the zero vector |
| Slots.FirstIndex | exporter/src/io.cpp:205-212 | the first matching position: it holds the value and no earlier one does; none exactly when the value is absent |
| Slots.FindFirst | exporter/src/io.cpp:205-212 | the scan-with-break finds the first matching position, or none |
| Slots.BindSlots | exporter/src/io.cpp:200-214 | logs one node-material binding per slot that matches a table element, naming the first matching index, in slot order |
| Slots.TableSlotsBindTheirIndices | exporter/src/io.cpp:200-214 | when the table's elements have distinct addresses, slots that point into the table bind exactly the indices they point at, in order |
| Slots.ForeignSlotsBindNothing | exporter/src/io.cpp:205-212 | a slot pointing outside the table is skipped without any call |
| Slots.ResolveImportSlotsAsWritten | exporter/src/io.cpp:159-177 | each of a node's materials resolves to the first same-named entry among the first material_count scene materials, and to no slot otherwise |
| Slots.ResolveImportSlots | exporter/src/io.cpp:159-177 | each of a node's materials resolves to the first same-named entry of the whole scene table, and to no slot otherwise |
| Slots.ResolveWithin | exporter/src/io.cpp:164-176 | the two nested loops fill each slot with the first match within the scanned prefix, and leave unmatched slots empty |
| Slots.ResolvedSlotsNameTheirMaterial | exporter/src/io.cpp:164-176 | with the full scan a slot is filled exactly when the table has that name, and then with the first such entry |
| Slots.BoundedScanMissesLaterMaterial | exporter/src/io.cpp:167 | material "B" over the table ["A", "B"]: the bounded scan leaves the slot empty, the full scan finds entry 1 |
| Materials.CreateMaterial | exporter/src/io.cpp:476-480 | takes the next handle and logs a Lambert material named after the input |
| Materials.DefineProperty | exporter/src/HalFbxExporter.cxx:253-260 | logs AddProperty, then Set with the value exactly when the SDK accepted the property |
| Materials.EveryPropertyIsAdded | exporter/src/HalFbxExporter.cxx:253-260 | every definition reaches AddProperty, in order, whatever the SDK answers |
| Materials.OnlyAcceptedPropertiesAreSet | exporter/src/HalFbxExporter.cxx:253-260 | the values set are exactly the accepted definitions' own values, in order; a rejected property has no other effect |
| ShaderMaterial.CreateShaderMaterial | exporter/src/HalFbxExporter.cxx:178-251 | takes the next handle, logs the shader material named after the input, then the forty property definitions in table order |
| ShaderMaterial.DefineGroups | exporter/src/HalFbxExporter.cxx:185-248 | the eight property groups, run in turn, define the whole table in order |
| ShaderMaterial.ShaderMaterialAddsEveryProperty | exporter/src/HalFbxExporter.cxx:185-248 | the shader material gets all forty properties added, in table order |
| ShaderMaterial.DefineBaseProperties | exporter/src/HalFbxExporter.cxx:185-190 | defines the four base properties, in order |
| ShaderMaterial.DefineSpecularProperties | exporter/src/HalFbxExporter.cxx:191-200 | defines the six specular properties, in order |
| ShaderMaterial.DefineTransmissionProperties | exporter/src/HalFbxExporter.cxx:201-213 | defines the seven transmission properties, in order |
| ShaderMaterial.DefineSheenProperties | exporter/src/HalFbxExporter.cxx:214-217 | defines the three sheen properties, in order |
| ShaderMaterial.DefineCoatProperties | exporter/src/HalFbxExporter.cxx:218-230 | defines the nine coat properties, in order |
| ShaderMaterial.DefineThinFilmProperties | exporter/src/HalFbxExporter.cxx:231-234 | defines the thin-walled and thin-film properties, in order |
| ShaderMaterial.DefineSubsurfaceProperties | exporter/src/HalFbxExporter.cxx:235-243 | defines the five subsurface properties, in order |
| ShaderMaterial.DefineSurfaceProperties | exporter/src/HalFbxExporter.cxx:244-248 | defines the three surface properties, in order |
| Walker.CreateNodeRecursive | exporter/src/io.cpp:182-236 | a null object yields no node and no call. Otherwise its subtree takes the next Size(o) handles, and the log grows by the node, transform, slot, mesh and children calls, depth first, left to right. Afterwards each vertex buffer of the subtree holds `Transformed` of its snapshot under the position matrix, converted exactly once (older form at HalFbxExporter.cxx:98-135) |
| Walker.BuildNode | exporter/src/io.cpp:191-235 | a present object's node takes the next handle, and its subtree's calls are appended in the fixed order transform, slots, mesh, children; afterwards each vertex buffer of the subtree holds `Transformed` of its snapshot under the position matrix, converted exactly once |
| Walker.BindNodeSlots | exporter/src/io.cpp:200-214 | the current exporter binds the node's slots; the older one makes no call |
| Walker.AttachMesh | exporter/src/io.cpp:216-226 | a mesh is created with the node's next handle from its own buffer and set as the node's attribute. That buffer then holds the conversion of its snapshot; the children's buffers are untouched |
| Walker.BuildChildren | exporter/src/io.cpp:228-233 | each child's subtree, in order, each followed by AddChild on this node, with handles allotted by subtree size; afterwards every buffer under the children holds the conversion of its snapshot |
| Session.ExportFbx | exporter/src/io.cpp:75-140 | returns true exactly when the path is non-empty, the root is present and Initialize succeeds. The log grows by the whole session's calls for either iteration. An empty path creates nothing and leaves the buffers as they were; otherwise every buffer of the tree ends up converted exactly once, and the handle count grows by the materials (unless the older iteration meets a null root) plus the tree's size (older order at HalFbxExporter.cxx:31-96) |
| Session.SessionOutcome | exporter/src/io.cpp:75-140 | every session ends with the manager's destruction; the call before it is Export exactly when export_fbx returns true; an empty path ends the session before any material or node. The manager is destroyed exactly once, so only at the end. Export occurs once when export_fbx returns true and never otherwise |
| Session.SessionClosing | exporter/src/io.cpp:75-140 | counted over the whole log of export_fbx: one destruction of the manager, one Export when it returns true, none otherwise (older order at HalFbxExporter.cxx:31-96) |
| Session.MaterialsQuiet | exporter/src/io.cpp:96-101 | the material loop calls neither Export nor the manager's destruction (older loop at HalFbxExporter.cxx:67-72) |
| Walker.NodeEventsQuiet | exporter/src/io.cpp:182-236 | a subtree's calls include neither Export nor the manager's destruction |
| Walker.BuildContents | exporter/src/io.cpp:216-233 | the mesh and child steps append the mesh calls, then the children's; afterwards each vertex buffer of the subtree holds `Transformed` of its snapshot under the position matrix, converted exactly once |
| Session.TreeEnds | exporter/src/io.cpp:113-139 | once the walk has run, the session's last two calls are Export and the destruction when Initialize succeeds, Initialize and the destruction otherwise |
| Session.ExportTree | exporter/src/io.cpp:104-139 | a null root ends the session with the manager's destruction alone; otherwise the root gets the next handle, then the walk and the rest of the session follow, and every buffer of the tree ends up converted exactly once. The handle count grows by the tree's size, plus the materials in the older iteration |
| Session.FinishExport | exporter/src/HalFbxExporter.cxx:61-95 | the root's children are moved under the scene root, the older exporter then creates its materials, one handle each, then the scene is written |
| Session.WriteScene | exporter/src/io.cpp:118-139 | looks up the ascii or binary writer by its description and initialises the exporter; Export follows only on success, and the manager is destroyed on both paths |
| Session.AddMaterials | exporter/src/io.cpp:97-102 | every table entry in order gets the next handle, is created and is added to the scene |
| Session.AddMaterial | exporter/src/io.cpp:99-101 | one material created and then added to the scene under its own handle |
| Session.MoveChildrenToSceneRoot | exporter/src/io.cpp:113-116 | one move under the scene root per child of the exported root, in index order |

## Left out

- Memory management is not modelled: `delete_iodata`, the other deletion code and the leaked UTF-8 path buffer.
- Logging to stderr is not modelled.
- Importing is not modelled, except the material-slot loop of `read_node_recursive`. `import_fbx`, `read_mesh`, `read_materials` and the rest of `read_node_recursive` are left out. `read_mesh` fills `polys` with the first `poly_count` entries of the polygon-vertex array (io.cpp:259-262), not with start offsets. A mesh read back therefore does not carry the polygon table that `create_mesh` reads, and the model claims no export/import round trip.
- `main.cxx`, the commented-out code in `io.cpp` and the Blender add-on (Python) are not part of this model.
- `FbxAnsiToUTF8` is not modelled. The path reaches `Initialize` unchanged, because the conversion is an SDK routine.
- The matrix arithmetic and the decomposition of `matrix_local` into translation, rotation and scale are not computed: `GetT`/`GetR`/`GetS` are logged with the matrix. `FbxAMatrix::MultT` is the scene's `multT`. The rotation's `cos(pi/4)` stays symbolic.
- Floating-point rounding is not modelled; reals are used.
- 32-bit counter widths are not modelled; naturals are used.
- Re-parenting under the scene root is logged as move calls. The SDK's detach-and-attach semantics are not modelled.
- Engine.Scene.AddPropertyTo: models the SDK's validity answer as a fixed set of accepted property names. It cannot depend on the material or the data type.
- The forty standard-surface fields of a table material are kept as one flat sequence. The older `create_material` defines its properties with fixed values and never reads them.
- Walker.CreateNodeRecursive: children are elements of an array and so cannot be null. The older exporter's `AddChild` of a null child is therefore out of reach.
- Walker.AttachMesh: does not model the null check after `create_mesh` (io.cpp:220-224). `create_mesh` calls `InitControlPoints` on the result of `FbxMesh::Create` (io.cpp:309) without checking it, so it never returns null: a null mesh would be dereferenced there first. In this model, `Scene.Create` always yields a handle, so the null branch has no counterpart.
- Walker.BuildNode: the tree's vertex buffers must be distinct (`Disjoint`), so aliasing between meshes is not modelled. `before` is a snapshot of the buffers taken before the walk, which overwrites them in place.
- MeshBuild.CreateMesh: requires `Readable`. The source reads without bounds checks, so out-of-range offsets are undefined behaviour there, and the model leaves them out.
- Normals.VertexNormalsFromPolygonNormals: requires its ranges inside index_count and one normal per polygon, for the same reason.
- Slots.ResolveImportSlotsAsWritten: requires the node's material count not to exceed the scene's. Past that, the as-written scan can read beyond the material array when a node material is not matched within the scene's entries, which is undefined behaviour.
- Slots.ResolveWithin: a slot the scan does not match is uninitialised memory in the source. The model gives it no slot.

## Findings

| source | as written | input that shows it | evidently intended | confidence | as-written member | corrected member |
|---|---|---|---|---|---|---|
| exporter/src/io.cpp:167 | the name scan over the scene's materials stops at the node's own material count | a node whose one material is "B", in a scene with materials ["A", "B"]: the slot stays unset | scan all scene materials, so every node material that exists in the scene resolves to its first same-named entry | not executed | Slots.ResolveImportSlotsAsWritten, Slots.BoundedScanMissesLaterMaterial | Slots.ResolveImportSlots, Slots.ResolvedSlotsNameTheirMaterial |
