# A Dafny model of the harmony renderer core

harmony is a small Rust game engine drawn with wgpu. This project models the
part of it that decides what the GPU is told to do each frame:

- the render graph: an ordered list of nodes, each with a `dirty` flag and the
  command buffers it recorded last. A frame prepares every node, re-records
  the nodes that ask for it or are dirty, and submits every node's buffers in
  order (`RenderGraph`).
- material-batched draw submission. `RenderUnlit::run` and `RenderPBR::run`
  set their pipeline and global bind group. Then, material by material, they
  bind the material, and for every entity drawn under it they bind its
  transform and issue one indexed draw per sub-mesh (`Batching`,
  `RenderUnlit`, `RenderPbr`).
- glTF import (`Mesh::new`): vertex assembly, primitive modes,
  the main-texture lookup and the `repr(C)` layout of `MeshVertexData`
  (`MeshImport`). `Path::file_name` is modelled for `/`-separated paths
  (`Paths`).
- the skybox material: the six face copies from the projected atlas into a
  cube texture, the cube view, and `create_bind_group` (`SkyboxMaterial`).
- the passes of `src/graphics/pipelines`: bind group layouts, pass
  descriptions (shader, raster, colour, depth and vertex state), `build`,
  `prepare` and `render` for the skybox, cube-projection, irradiance,
  specular, BRDF-lookup, unlit and PBR pipelines.

GPU objects are handles (`nat`). A bind group is its layout handle plus its
bindings. A render pass is the sequence of commands recorded into it, and
properties are stated through projections of that trace. `Binds(cmds, slot)`
lists the groups bound at a slot. `Draws(cmds)` lists the index ranges drawn.
A Rust panic (an `unwrap` of `None`, an index out of range, an explicit
`panic!`) becomes `Result.Panic` with a `Fault` saying which one.

`run` binds the material group once per asset material of the pass's kind,
whether or not an entity uses it (`Batching.EachMaterialBoundOnce`).

`Mesh::new` looks the main texture's image up by the texture's own index
(see "## Findings"). The import takes the lookup as a parameter:
`MeshImport.New(ByTextureIndex, …)` is the code as written and
`MeshImport.New(BySource, …)` the import with the intended lookup. The two
agree on every document whose textures sample the images at their own
indices (`MeshImport.NewAgreesWhenAligned`).

## Model

| member | source | states |
|---|---|---|
| RenderGraph.New | src/graphics/render_graph.rs:18-32 | a new graph has exactly one node, the unlit pass, with no buffers and dirty, so it is recorded on the first frame |
| RenderGraph.AddAndRemoveChangeNothing | src/graphics/render_graph.rs:34-44 | `add` and `remove` leave the node list unchanged, and `length` is the number of nodes |
| RenderGraph.Render | src/graphics/render_graph.rs:46-57 | a frame keeps the node count. A node that is asked to record or is dirty ends holding exactly the one buffer its `render` returned. Any other node keeps its buffers. Every node ends clean. The events are the per-node turns in node order |
| RenderGraph.NodeEventsShape | src/graphics/render_graph.rs:47-56 | one node's turn is prepare, then record only if asked or dirty, then submit its current buffers |
| RenderGraph.NodeEventsProjections | src/graphics/render_graph.rs:47-56 | one node's turn prepares that node once and submits exactly its buffers once |
| RenderGraph.PreparedNodesAppend | src/graphics/render_graph.rs:47-56 | the prepared-node projection distributes over concatenated event traces |
| RenderGraph.SubmissionsAppend | src/graphics/render_graph.rs:55 | the submission projection distributes over concatenated event traces |
| RenderGraph.SubmissionsStep | src/graphics/render_graph.rs:47-56 | one more node turn adds exactly one submission, holding that node's post-turn buffers |
| RenderGraph.EveryNodePreparedOnceInOrder | src/graphics/render_graph.rs:47-49 | in a frame `prepare` runs exactly once per node, in node order, dirty or not |
| RenderGraph.EveryNodeSubmittedInOrder | src/graphics/render_graph.rs:47-56 | every node's buffers are submitted once per frame, in node order, re-recorded or not |
| RenderGraph.RecordedIffAskedOrDirty | src/graphics/render_graph.rs:49-53 | a node is re-recorded in a frame if and only if its `prepare` returned `Record` or it was dirty |
| RenderGraph.CleanFrameKeepsBuffers | src/graphics/render_graph.rs:49-55 | after one frame, a frame in which no `prepare` asks to record re-records nothing and resubmits the same buffers |
| Gpu.AsU32 | src/scene/systems/render_unlit.rs:52 | `as u32` keeps the low 32 bits: the result is below 2^32, differs from the input by a multiple of 2^32, and equals any input that already fits |
| Gpu.BindsAppend | src/scene/systems/render_unlit.rs:25-58 | the groups bound at a slot by two traces in sequence are those of the first, then those of the second |
| Gpu.DrawsAppend | src/scene/systems/render_unlit.rs:25-58 | the draws of two traces in sequence are those of the first, then those of the second |
| Gpu.BoundCubeDraw | src/graphics/pipelines/equirectangular.rs:44-54 | panics exactly when the bind group was never prepared. Otherwise: set the pipeline, bind exactly that group at slot 0 and nothing elsewhere, then draw vertices 0..6 as instances 0..6 |
| Gpu.FormatSize | src/graphics/pipelines/unlit.rs:160-181 | each vertex format takes four bytes per float component: 8, 12 and 16 bytes for two, three and four floats |
| Gpu.OffscreenFloatDesc | src/graphics/pipelines/equirectangular.rs:104-135 | the description the cube-projection, irradiance and specular passes share: one Rgba32Float target whatever the swap chain, no depth, no vertex input, no culling, with the given shader and layouts |
| Gpu.SampledImageLayouts | src/graphics/pipelines/equirectangular.rs:79-103 | the one layout the cube-projection and irradiance passes declare: a 2D texture and its sampler, fragment stage, bindings numbered from 0 |
| Paths.Split | src/graphics/mesh.rs:143-149 | splitting a path gives at least one piece and no piece holds a separator; joining the pieces back gives the path (`Paths.SplitJoinsBack`) |
| Paths.Components | src/graphics/mesh.rs:143-149 | the normal components are named pieces of the path |
| Paths.ComponentsKeepNamed | src/graphics/mesh.rs:143-149 | every named piece of the path is among its components |
| Paths.FileName | src/graphics/mesh.rs:143-149 | a file name, when there is one, is a named single component other than `..`; when there is none is stated by `Paths.NoComponentNoFileName`, `Paths.ParentAloneHasNoFileName` and `Paths.ParentHasNoFileName` |
| Paths.ComponentsAppend | src/graphics/mesh.rs:143-149 | keeping the named pieces distributes over concatenation, and one piece is kept exactly when it is named, so the components keep the pieces' order |
| Paths.SplitJoinsBack | src/graphics/mesh.rs:143-149 | joining the pieces of a split with `/` gives the path back |
| Paths.JoinExtendLast | src/graphics/mesh.rs:143-149 | appending a character to the last piece appends it to the joined path |
| Paths.NoComponentNoFileName | src/graphics/mesh.rs:143-147 | "", "/" and "." have no file name, so the `unwrap` panics on them |
| Paths.ParentAloneHasNoFileName | src/graphics/mesh.rs:143-147 | ".." has no file name |
| Paths.ParentHasNoFileName | src/graphics/mesh.rs:143-147 | a path ending in `/..` has no file name, whatever precedes it |
| Paths.SplitJoin | src/graphics/mesh.rs:143-149 | splitting `dir/name` splits `dir` and appends `name` |
| Paths.FileNameOfJoin | src/graphics/mesh.rs:143-149 | the file name of `dir/name` is `name` for every proper name, whatever the directory |
| Paths.FileNameOfBareName | src/graphics/mesh.rs:143-149 | a bare proper name is its own file name |
| Paths.BareSplit | src/graphics/mesh.rs:143-149 | a name without separators splits into itself alone |
| Paths.TrailingSeparatorIgnored | src/graphics/mesh.rs:143-149 | a trailing separator does not change the file name |
| MeshImport.AlignUp | src/graphics/mesh.rs:8-15 | rounding up to f32 alignment gives the least aligned value at or above the input |
| MeshImport.VertexLayout | src/graphics/mesh.rs:8-15 | the `repr(C)` fields of a vertex sit at bytes 0, 12, 24 and 32, and a vertex takes 48 bytes, without padding |
| MeshImport.MeshVertexState | src/graphics/pipelines/unlit.rs:150-185 | the vertex input of the unlit and PBR passes reads whole `MeshVertexData` vertices: stride, attribute offsets and sizes match the `repr(C)` layout, and the last attribute ends at the stride |
| MeshImport.PrimitiveTopology | src/graphics/mesh.rs:194-203 | an unsupported mode is the only panic |
| MeshImport.PrimitiveTopologyIsPartialBijection | src/graphics/mesh.rs:194-203 | the mode mapping succeeds exactly off LINE_LOOP and TRIANGLE_FAN, is one-to-one there, and reaches every topology |
| MeshImport.Overwrite | src/graphics/mesh.rs:95-113 | writing an attribute array succeeds exactly when it is no longer than the vertex list. Entry i lands on vertex i and every other vertex is unchanged. A longer array panics out of range |
| MeshImport.Vertices | src/graphics/mesh.rs:87-113 | one vertex per position. Each optional attribute array lands on the vertices with the same index. The rest stays at default. Any array longer than the positions panics |
| MeshImport.AbsentAttributesStayZero | src/graphics/mesh.rs:21-30 | with no normals, texture coordinates or tangents, each vertex is the default vertex carrying its position |
| MeshImport.TextureFileName | src/graphics/mesh.rs:138-156 | a URI image gives its file name, and one without a file name panics. Any other image, or none, gives no texture |
| MeshImport.MaterialTextureAsWritten | src/graphics/mesh.rs:133-161 | the main texture as the code computes it: "white.png" without a base-colour texture. Otherwise it is the file name of the image at the texture's own index in the image list, "white.png" when that image is missing or not a URI, and a panic when the URI has no file name |
| MeshImport.MaterialTexture | src/graphics/mesh.rs:133-161 | the main texture is the file name of the image the base-colour texture samples, else "white.png" |
| MeshImport.TextureIndexPicksWrongImage | src/graphics/mesh.rs:137 | for any two distinct bare file names `a` and `b`, a document whose texture 0 samples image 1 of `[a, b]`: the as-written lookup names `a`, the intended lookup names `b` |
| MeshImport.ImportPrimitive | src/graphics/mesh.rs:79-188 | under the given texture lookup (the code's is `ByTextureIndex`), one primitive imports exactly when it is importable. Missing positions and missing indices panic. On success the sub-mesh and material are those of the primitive, and its two buffers are the next two handles |
| MeshImport.ImportPrimitives | src/graphics/mesh.rs:79-189 | under the given texture lookup, the loop succeeds exactly when every primitive is importable. Primitive k then gives sub-mesh k, and material k with index start + k |
| MeshImport.New | src/graphics/mesh.rs:52-192 | a document without a mesh panics. Otherwise the result is the import of the first mesh's primitives, with material k at index start + k; with `ByTextureIndex` this is the code as written |
| MeshImport.LaterMeshesIgnored | src/graphics/mesh.rs:67-72 | meshes after the first change nothing in the result |
| MeshImport.BuffersAreDistinct | src/graphics/mesh.rs:171-176 | all vertex and index buffer handles of an imported mesh are pairwise distinct |
| MeshImport.LookupsAgreeWhenAligned | src/graphics/mesh.rs:133-161 | where each texture samples the image at its own index, the code's lookup and the intended one give the same main texture |
| MeshImport.ImportsAgreeWhenAligned | src/graphics/mesh.rs:79-189 | on such a document the primitive loop as written and with the intended lookup give the same result |
| MeshImport.NewAgreesWhenAligned | src/graphics/mesh.rs:52-192 | on such a document `Mesh::new` as written and with the intended lookup agree |
| MeshImport.SwappedLookups | src/graphics/mesh.rs:133-149 | with images ".." and `name` and texture 0 sampling image 1, the code's lookup panics for lack of a file name and the intended one names `name` |
| MeshImport.SwappedImport | src/graphics/mesh.rs:79-161 | that primitive is importable with the intended lookup and not with the code's |
| MeshImport.MisalignedImportPanics | src/graphics/mesh.rs:52-192 | on that document `Mesh::new` as written panics, while the intended import succeeds with main texture `name` |
| Batching.MeshesKnownEverywhere | src/scene/systems/render_unlit.rs:42-47 | the recursive mesh-readiness predicate holds exactly when every entity drawn under the index names a loaded mesh |
| Batching.ReadyEverywhere | src/scene/systems/render_unlit.rs:33-58 | the recursive batch-readiness predicate holds exactly when every material of the list is ready |
| Batching.MeshesKnownPrefix | src/scene/systems/render_unlit.rs:42-47 | mesh readiness of an entity list implies it of every prefix |
| Batching.ReadyPrefix | src/scene/systems/render_unlit.rs:33-58 | batch readiness of a material list implies it of every prefix |
| Batching.SubmitMesh | src/scene/systems/render_unlit.rs:48-53 | the sub-mesh loop emits, per sub-mesh in order: its index buffer, its vertex buffer at slot 0, and one instance of all its indices |
| Batching.SubmitEntities | src/scene/systems/render_unlit.rs:42-54 | the entity loop succeeds exactly when every entity drawn under the index has a loaded mesh, else panics naming a missing mesh. On success it emits the reference per-entity trace |
| Batching.Submit | src/scene/systems/render_unlit.rs:33-58 | the material loop succeeds exactly when the batch is ready and then emits the reference trace. A panic names the first material of the kind without a bind group, or a missing mesh |
| Batching.SubMeshProjections | src/scene/systems/render_unlit.rs:50-52 | a sub-mesh binds no group and draws its index range once |
| Batching.MeshProjections | src/scene/systems/render_unlit.rs:48-53 | a mesh binds no group and draws each sub-mesh's index range once, in order |
| Batching.EntityProjections | src/scene/systems/render_unlit.rs:45-53 | an entity binds its transform once at slot 0, binds no material, and draws each sub-mesh of its mesh |
| Batching.EntitiesProjections | src/scene/systems/render_unlit.rs:42-54 | under one material, the transforms of exactly the entities drawn under its index are bound, in join order, and all their sub-meshes are drawn |
| Batching.MaterialProjections | src/scene/systems/render_unlit.rs:36-55 | a material of the pass's kind binds its own group once at slot 2, then the transforms of exactly its entities at slot 0, and draws all their sub-meshes; a material of the other kind binds and draws nothing |
| Batching.EachMaterialBoundOnce | src/scene/systems/render_unlit.rs:33-41 | each material of the pass's kind is bound exactly once at slot 2, in list order, used or not |
| Batching.EntitiesBoundPerMaterial | src/scene/systems/render_unlit.rs:33-54 | slot 0 receives, material by material, the transforms of exactly the entities drawn under it |
| Batching.DrawCountIsSubMeshTotal | src/scene/systems/render_unlit.rs:33-54 | the number of indexed draws is the sum of the sub-mesh counts of the entities drawn, material by material |
| Batching.MeshIsDrawOnly | src/scene/systems/render_unlit.rs:48-53 | a mesh's commands are buffer binds and indexed draws only |
| Batching.EntitiesAreDrawOnly | src/scene/systems/render_unlit.rs:42-54 | an entity loop sets no pipeline and binds only at slot 0 |
| Batching.BatchIsDrawOnly | src/scene/systems/render_unlit.rs:33-58 | the batch sets no pipeline, binds only at slots 0 and 2, and issues no plain draw |
| Batching.DrawOnlyBindsNoOtherSlot | src/scene/systems/render_unlit.rs:33-58 | a batch-only trace binds nothing at slots other than 0 and 2 |
| Batching.OtherShadingEmitsNothing | src/scene/systems/render_unlit.rs:35-57 | materials of the other shading model add nothing: the trace equals the one for this kind's materials alone |
| Batching.OfShading | src/scene/systems/render_unlit.rs:35-57 | the filter keeps only materials of the given shading model, each taken from the list |
| Batching.OfShadingKeepsKind | src/scene/systems/render_unlit.rs:35-57 | every material of the shading model in the list is kept, and a list of that model alone is kept whole |
| Batching.OfShadingAppend | src/scene/systems/render_unlit.rs:35-57 | the filter distributes over concatenation and keeps one material exactly when it has the shading model, so it keeps list order |
| RenderUnlit.Run | src/scene/systems/render_unlit.rs:22-59 | never panics on a ready batch, and panics with a missing bind group or mesh otherwise. The trace is the pipeline, the global group at slot 1, then the reference batch, material by material and entity by entity. So it sets the pipeline first and binds the global group once, at slot 1. It binds each unlit material once at slot 2 and every drawn entity's transform at slot 0. It issues one draw per sub-mesh |
| RenderUnlit.UnlitTrace | src/scene/systems/render_unlit.rs:25-58 | the pipeline and the global group come first and the rest is batch-only; slot 1 receives only the global group, slot 2 the kind's material groups and slot 0 their entities' transforms, and the draws number the sub-meshes drawn |
| RenderUnlit.TwoMaterialsFiveEntities | src/scene/systems/render_unlit.rs:33-58 | two materials and five interleaved entities: each material is bound once, the transforms come grouped by material in join order, and there are five draws |
| RenderUnlit.FiveEntitiesPerMaterial | src/scene/systems/render_unlit.rs:42-47 | the join filtered by material index picks entities 2, 4 and 6 for material 0 and 3 and 5 for material 1, in join order, each with its loaded one-sub-mesh mesh |
| RenderPbr.NoTransformsIff | src/scene/systems/render_pbr.rs:33 | the transform count is zero exactly when no entity has a transform, and is at most the entity count |
| RenderPbr.Run | src/scene/systems/render_pbr.rs:28-73 | records nothing without transforms or a skybox, and panics when the skybox has no PBR group. Otherwise it succeeds exactly on a ready batch, and the trace is the pipeline, the global group at slot 1, the skybox group at slot 3, then the reference batch of the PBR materials; so slots 1 and 3 are bound once each |
| RenderPbr.HeadProjections | src/scene/systems/render_pbr.rs:38-40 | the three commands before the material loop bind the global group at slot 1 and the environment at slot 3 only, and draw nothing |
| RenderPbr.PbrTrace | src/scene/systems/render_pbr.rs:38-72 | on a ready batch the pipeline comes first; slots 1 and 3 receive only the global and environment groups, slot 2 the PBR material groups and slot 0 their entities' transforms, and the draws number the sub-meshes drawn |
| SkyboxMaterial.AtlasTarget | src/graphics/material/skybox.rs:17 | the atlas is size wide, six faces high, in a float format |
| SkyboxMaterial.CopyFaces | src/graphics/material/skybox.rs:46-70 | the six copies: copy i takes the size-by-size slice at row size*i of the atlas and writes it at the origin of cube layer i, mip 0 |
| SkyboxMaterial.LayersWrittenOnceInOrder | src/graphics/material/skybox.rs:46-70 | the copies write cube layers 0 to 5, each once, in order |
| SkyboxMaterial.SlicesDisjointPair | src/graphics/material/skybox.rs:52-56 | an earlier slice ends before a later slice starts |
| SkyboxMaterial.SlicesDisjoint | src/graphics/material/skybox.rs:46-70 | no two copied slices overlap |
| SkyboxMaterial.SlicesCoverAtlas | src/graphics/material/skybox.rs:46-70 | the slices tile the atlas: the first starts at row 0, each starts where the last ended, the last ends at the atlas height, and all lie within its width |
| SkyboxMaterial.CubeTexture | src/graphics/material/skybox.rs:31-43 | the cube texture is size by size, six layers, one mip, float format |
| SkyboxMaterial.CubeView | src/graphics/material/skybox.rs:76-84 | the view is a cube view spanning every layer and mip level of the cube texture, in its format |
| SkyboxMaterial.New | src/graphics/material/skybox.rs:13-106 | the graph's buffers are submitted first, then the six face copies, in one submission. The skybox holds a size-by-size, six-layer cube texture, a cube view of all six layers, and no bind group |
| SkyboxMaterial.CreateBindGroup | src/graphics/material/skybox.rs:108-129 | the new group, for the given layout, binds the cube view at 0 and the sampler at 1; nothing else of the skybox changes |
| SkyboxPipeline.Identity | src/graphics/pipelines/skybox.rs:27-34 | the default matrices are identities: one exactly where row equals column |
| SkyboxPipeline.Layouts | src/graphics/pipelines/skybox.rs:126-160 | a vertex-stage uniform buffer layout, then a fragment-stage cube texture and sampler layout, bindings numbered from 0 |
| SkyboxPipeline.Description | src/graphics/pipelines/skybox.rs:119-203 | the skybox shader, swap-chain colour format, depth test less-with-writes, 16-bit indices and no vertex buffer |
| SkyboxPipeline.Build | src/graphics/pipelines/skybox.rs:205-232 | the uniform buffer starts as two identity matrices and the global group covers all 128 bytes of it, for the first layout |
| SkyboxPipeline.FirstActive | src/graphics/pipelines/skybox.rs:60-70 | finds the first active camera, or none exactly when no camera is active |
| SkyboxPipeline.Prepare | src/graphics/pipelines/skybox.rs:40-89 | nothing happens without a skybox or an active camera. Otherwise the first active camera's matrices are staged and copied into the uniform buffer by the pass's own encoder. The shared encoder is left untouched |
| SkyboxPipeline.Render | src/graphics/pipelines/skybox.rs:91-110 | records nothing |
| SkyboxPipeline.FirstActiveCameraWins | src/graphics/pipelines/skybox.rs:60-75 | with several active cameras, the earliest one's matrices are used |
| SkyboxPipeline.GlobalGroupFitsLayout | src/graphics/pipelines/skybox.rs:205-232 | the group `build` makes conforms to the first layout |
| SkyboxPipeline.MaterialGroupFitsLayout | src/graphics/material/skybox.rs:108-129 | the skybox material's group conforms to the pass's second layout when its view is a cube view |
| Equirectangular.Build | src/graphics/pipelines/equirectangular.rs:137-147 | keeps the image name and size, and prepares no group yet |
| Equirectangular.Prepare | src/graphics/pipelines/equirectangular.rs:17-42 | binds the named image's view at 0 and its sampler at 1, for the first layout |
| Equirectangular.Description | src/graphics/pipelines/equirectangular.rs:72-135 | the cube-projection shader over the single-image layout, an Rgba32Float target whatever the swap chain, no depth, no vertex input, no culling |
| Equirectangular.Render | src/graphics/pipelines/equirectangular.rs:44-54 | panics exactly before `prepare`; otherwise sets the pipeline, binds the prepared group at slot 0 and draws 0..6 six times |
| Equirectangular.PrepareIgnoresInput | src/graphics/pipelines/equirectangular.rs:17-42 | the input target does not affect `prepare` |
| Equirectangular.RenderBeforePrepareFails | src/graphics/pipelines/equirectangular.rs:44-54 | rendering a pass that was never prepared panics |
| Equirectangular.RenderAfterPrepare | src/graphics/pipelines/equirectangular.rs:17-54 | after `prepare`, `render` binds exactly the prepared group at slot 0 and draws 0..6 six times. The group fits the layout when the image is a 2D view |
| Irradiance.Build | src/graphics/pipelines/irradiance.rs:135-141 | keeps the size, and prepares no group yet |
| Irradiance.Prepare | src/graphics/pipelines/irradiance.rs:16-41 | panics exactly when no input is given. Otherwise binds the input's view at 0 and its sampler at 1 |
| Irradiance.Description | src/graphics/pipelines/irradiance.rs:70-133 | the irradiance shader over the single-image layout, an Rgba32Float target whatever the swap chain, no depth, no vertex input, no culling |
| Irradiance.Render | src/graphics/pipelines/irradiance.rs:43-53 | panics exactly before `prepare`; otherwise sets the pipeline, binds the prepared group at slot 0 and draws 0..6 six times |
| Irradiance.RenderBeforePrepareFails | src/graphics/pipelines/irradiance.rs:43-53 | rendering a pass that was never prepared panics |
| Irradiance.RenderAfterPrepare | src/graphics/pipelines/irradiance.rs:16-53 | after `prepare` with an input, `render` binds exactly the prepared group and draws 0..6 six times; the group fits the layout for a 2D input |
| Specular.Layouts | src/graphics/pipelines/specular.rs:109-138 | one layout: a uniform buffer, a 2D texture and a sampler, fragment stage, numbered from 0 |
| Specular.Build | src/graphics/pipelines/specular.rs:172-191 | keeps the resolution and the constants buffer, and prepares no group yet |
| Specular.Prepare | src/graphics/pipelines/specular.rs:37-69 | panics exactly when no input is given. Otherwise binds the 8-byte constants at 0, the input's view at 1 and its sampler at 2 |
| Specular.Description | src/graphics/pipelines/specular.rs:102-170 | the specular shader over its uniform, texture and sampler layout, an Rgba32Float target whatever the swap chain, no depth, no vertex input, no culling |
| Specular.Render | src/graphics/pipelines/specular.rs:71-81 | panics exactly before `prepare`; otherwise sets the pipeline, binds the prepared group at slot 0 and draws 0..6 six times |
| Specular.RenderBeforePrepareFails | src/graphics/pipelines/specular.rs:71-81 | rendering a pass that was never prepared panics |
| Specular.RenderAfterPrepare | src/graphics/pipelines/specular.rs:37-81 | after `prepare` with an input, `render` binds exactly the prepared group and draws 0..6 six times; the group fits the layout for a 2D input |
| SpecularBrdf.Layouts | src/graphics/pipelines/specular_brdf.rs:59-62 | the pass has no bind group layout |
| SpecularBrdf.Description | src/graphics/pipelines/specular_brdf.rs:52-94 | one Rgba8UnormSrgb target, no depth, no vertex input, the BRDF shader |
| SpecularBrdf.Build | src/graphics/pipelines/specular_brdf.rs:96-102 | keeps the size |
| SpecularBrdf.Prepare | src/graphics/pipelines/specular_brdf.rs:15-24 | `prepare` changes nothing |
| SpecularBrdf.Render | src/graphics/pipelines/specular_brdf.rs:26-35 | sets the pipeline and draws one triangle, binding no group |
| UnlitPipeline.Layouts | src/graphics/pipelines/unlit.rs:75-113 | a vertex-stage global uniform layout, then the material layout: uniform buffer, 2D texture and sampler, numbered from 0 |
| UnlitPipeline.Description | src/graphics/pipelines/unlit.rs:68-185 | the unlit shader, swap-chain colour format, clockwise front faces with back faces culled, depth less-with-writes, the mesh vertex input |
| UnlitPipeline.Build | src/graphics/pipelines/unlit.rs:187-214 | the global group binds the whole global-uniform buffer at 0, for the first layout |
| UnlitPipeline.GlobalGroupFitsLayout | src/graphics/pipelines/unlit.rs:187-214 | that group conforms to the first layout |
| UnlitPipeline.Render | src/graphics/pipelines/unlit.rs:44-59 | runs the unlit submission with this pass's global group: it succeeds exactly on a ready batch, and the trace is the pipeline, this group at slot 1, then the reference batch |
| PbrPipeline.Layouts | src/graphics/pipelines/pbr.rs:78-179 | the global layout (camera uniform for the vertex stage, lighting uniform for both stages), the material layout, and the environment layout: two cube maps and a 2D texture, each with a sampler |
| PbrPipeline.Description | src/graphics/pipelines/pbr.rs:71-251 | the PBR pass is described exactly as the unlit pass except for its shader and layouts, and its material layout is the unlit one |
| PbrPipeline.Build | src/graphics/pipelines/pbr.rs:253-295 | the global group binds the whole camera buffer at 0 and the whole lighting buffer at 1, for the first layout |
| PbrPipeline.GlobalGroupFitsLayout | src/graphics/pipelines/pbr.rs:253-295 | that group conforms to the first layout |
| PbrPipeline.Render | src/graphics/pipelines/pbr.rs:47-62 | runs the PBR submission with this pass's global group: nothing without transforms or skybox, a panic without the skybox's PBR group, and otherwise success exactly on a ready batch with the trace pipeline, this group at slot 1, the skybox group at slot 3, then the reference batch |

## Left out

- Device and queue work (creating buffers, textures, samplers, shader modules and pipelines) is not modelled. New GPU objects are handles passed in as parameters. Submitting to the queue is recorded as an event or as the list of buffers submitted.
- Floating-point values are opaque: vertex attributes, colours, camera matrices, roughness and sampler settings are only copied, never computed with.
- `PrepareUnlit` and `PreparePBR`, the systems the unlit and PBR `prepare` run, are not part of this model; they fill uniform buffers and build material bind groups.
- The asset manager is given as tables. `get_mesh` of a name it does not hold is modelled as a panic (`UnknownMesh`), and `get_image` as a precondition that the image is loaded. The PBR bind group of the skybox resource is built by code outside this model and is given (`RenderPbr.SkyboxView`).
- `render_graph.rs` calls `prepare()` and `render(frame, device, asset_manager, world, pipeline)`, which do not match the pass interface the pipelines implement. The frame therefore takes, per node, what `prepare` reports and the buffer `render` returns.
- `Skybox::new` uses a render-graph API (`add` with a name, `render` returning buffers, `build_target`) that the graph shown does not have. The projection's buffers and the atlas texture are parameters of `SkyboxMaterial.New`.
- SkyboxMaterial.New: `size` is an `f32` in the source and `size as u32` truncates it; the model takes the size as a natural number. A `size * 6` row offset past 2^32 is not modelled.
- `VertexStateBuilder`, `SimplePipelineDesc::pipeline` and the pass interface (`src/graphics/pipeline.rs`) are not part of this model. The model states what each pass description supplies.
- The byte sizes of `GlobalUniforms` and `LightingUniform` are parameters of `UnlitPipeline.Build` and `PbrPipeline.Build`: their definitions are not part of this model.
- The skybox `prepare` records its copy into an encoder it creates and drops without submitting it. The model shows this as written (`SkyboxPipeline.Prepare`: the copy sits in `local`, the shared encoder is untouched) but does not claim it as a defect, since the intent is unknown.
- MeshImport.New and MeshImport.ImportPrimitives: the material index `material_start_index + materials.len() as i32` is an `i32` sum; the model uses unbounded integers and does not model it overflowing.
- Paths.FileName: only `/` separators are modelled; Windows prefixes and `\` separators are not.
- `specs` joins are modelled as a sequence of entities in join order; the ECS storage, `RunNow::setup` and system scheduling are left out.
- The `log::warn!` that `Mesh::new` issues when a document holds more than one mesh is not modelled (logging is I/O); `MeshImport.LaterMeshesIgnored` states what such a document imports.
- `Mesh::new` reading the glTF file, and decoding its buffers and images, are inputs: the document is given decoded.
- `application.rs`, the GUI components and the shaders are outside the modelled core.

## Findings

| source | as written | input that shows it | evidently intended | confidence | as-written member | corrected member |
|---|---|---|---|---|---|---|
| src/graphics/mesh.rs:137 | the main texture's image is looked up as `images.get(tex.index())`, the texture's own index in the texture list | textures `[samples image 1, samples image 0]`, images `[a, b]` for two distinct bare file names, base-colour texture 0: the code names `a`, the texture samples `b` | look up the image the texture samples (`tex.source()`) | medium, not executed | MeshImport.MaterialTextureAsWritten, MeshImport.TextureIndexPicksWrongImage, MeshImport.MisalignedImportPanics | MeshImport.MaterialTexture |
