# unrimp renderer core, modelled in Dafny

This project models several parts of the unrimp renderer (C++) and proves properties about them:

- **Instanced cubes, "draw instanced" variant.** The example cube renderer limits its texture count, derives a per-batch instance limit, and splits the cubes into solid and transparent batches. It records a reusable command buffer once, and each frame it records the uniform updates followed by a nested dispatch of that buffer.
- **The scene resource loader.** A three-level binary reader: a nodes header, then nodes, then items with optional payloads. The reader is driven by a moving cursor over the decompressed scene bytes and runs in one of two loader phases, chosen by an RHI capability.
- **The volume scene item.** A process-wide vertex array is shared by all volume items and reference counted, with the global pointer holding one reference of its own. The cube geometry and vertex layout are modelled too.
- **Resource bookkeeping.** Covers the `IResource` element (loading state, debug-name buffer, identifiers, sorted listener list), the mesh resource manager (draw-ID table, loader-type defaulting, loader selection, empty-resource creation, id invalidation) and the material technique's resource-group dirty tracking.
- **Packed file formats.** The material file (format header, material header, techniques, properties) and the asset package file (format header, package header, assets), as encode/decode functions with round-trip lemmas.

Simple RHI objects are modelled as values:

- A command buffer is an append-only sequence of tagged records.
- A vertex array is an object with a reference count.
- Resource handles are natural numbers.

Parts that change state in place are Dafny classes. Each such method is proved against a pure specification function:

| class | what its methods are proved against |
|---|---|
| the cube renderer | its batch plan and record sequences |
| the scene loader | the parser functions |
| the shared vertex array | the reference-count invariant |
| `IResource` | its field updates |
| the material technique | the state transformers |

Integers are unbounded. Every `uint32_t` is the subset type `u32`, and the invalid value is `0xFFFF_FFFF`. Multi-byte fields are little-endian. The source copies raw memory, so its byte order is that of the host.

## Model

| member | source | states |
|---|---|---|
| CubeRenderer.ClampedNumberOfTextures | Example/Source/Examples/Private/Advanced/InstancedCubes/CubeRendererDrawInstanced/CubeRendererDrawInstanced.cpp:120-128 | the kept texture count is at most the request, at most 8 and at most the RHI's 2D-array slice limit, and equals one of the three |
| CubeRenderer.MaximumNumberOfInstancesPerBatch | Example/Source/Examples/Private/Advanced/InstancedCubes/CubeRendererDrawInstanced/CubeRendererDrawInstanced.cpp:130-133 | the per-batch limit is the texture-buffer size halved and rounded down: two texels per instance, nothing more fits |
| CubeRenderer.CubeRendererDrawInstanced.constructor | Example/Source/Examples/Private/Advanced/InstancedCubes/CubeRendererDrawInstanced/CubeRendererDrawInstanced.cpp:107-336 | a new renderer has the clamped texture count and the per-batch limit, a texture array of whole slices, uniform buffers exactly when the RHI supports them, resource groups over them, no batches and an empty reusable buffer |
| CubeRenderer.VertexLayoutTilesStride | Example/Source/Examples/Private/Advanced/InstancedCubes/CubeRendererDrawInstanced/CubeRendererDrawInstanced.cpp:55-93 | position, texture coordinate and normal each end where the next begins, and the last ends at the 32-byte stride |
| CubeRenderer.IndicesInRange | Example/Source/Examples/Private/Advanced/InstancedCubes/CubeRendererDrawInstanced/CubeRendererDrawInstanced.cpp:252-272 | 36 indices, each naming one of the 24 vertices, and the two triangles of each face use only that face's four vertices |
| CubeRenderer.ResourceGroupsMatchRootSignature | Example/Source/Examples/Private/Advanced/InstancedCubes/CubeRendererDrawInstanced/CubeRendererDrawInstanced.cpp:135-156 | the root signature has four tables, and the groups created for parameters 0, 1 and 2 supply one resource per declared range |
| CubeRenderer.FillTextureContent | Example/Source/Examples/Private/Advanced/InstancedCubes/CubeRendererDrawInstanced/CubeRendererDrawInstanced.cpp:163-197 | the nested fill loop writes every byte of the buffer: three colour channels of each texel, then 255 |
| CubeRenderer.TextureContentShape | Example/Source/Examples/Private/Advanced/InstancedCubes/CubeRendererDrawInstanced/CubeRendererDrawInstanced.cpp:159-196 | every byte of the 128·128·4·n-byte buffer belongs to one of the n slices; every fourth byte (alpha) is 255 and the others are channel values of their own slice and texel |
| CubeRenderer.TextureByteAt | Example/Source/Examples/Private/Advanced/InstancedCubes/CubeRendererDrawInstanced/CubeRendererDrawInstanced.cpp:186-195 | the byte for channel c of texel i of slice j sits at j·65536 + 4i + c, and alpha is 255 |
| CubeRenderer.CeilDivIsCeiling | Example/Source/Examples/Private/Advanced/InstancedCubes/CubeRendererDrawInstanced/CubeRendererDrawInstanced.cpp:366-367 | the batch count is the ceiling of cubes / limit: enough batches, and one fewer would not be |
| CubeRenderer.BatchSizes | Example/Source/Examples/Private/Advanced/InstancedCubes/CubeRendererDrawInstanced/CubeRendererDrawInstanced.cpp:376-380 | the loop's batch sizes lie between 1 and the limit, sum to the cubes, and are as many as the ceiling |
| CubeRenderer.TaggedBatches | Example/Source/Examples/Private/Advanced/InstancedCubes/CubeRendererDrawInstanced/CubeRendererDrawInstanced.cpp:379 | one batch per size, each with the loop's transparency flag, texture count and scene radius |
| CubeRenderer.BatchSizesStep | Example/Source/Examples/Private/Advanced/InstancedCubes/CubeRendererDrawInstanced/CubeRendererDrawInstanced.cpp:376-378 | one loop step takes the limit or the rest, then continues with the signed counter reduced by the limit |
| CubeRenderer.InitializeBatches | Example/Source/Examples/Private/Advanced/InstancedCubes/CubeRendererDrawInstanced/CubeRendererDrawInstanced.cpp:373-389 | each batch loop creates exactly the batches of its size sequence, in order |
| CubeRenderer.PlanBatchesShape | Example/Source/Examples/Private/Advanced/InstancedCubes/CubeRendererDrawInstanced/CubeRendererDrawInstanced.cpp:360-389 | ceil(solid/max) + ceil(transparent/max) batches of 1 to max cubes each; the first group are solid and hold the n − n/3 solid cubes, and the rest are transparent and hold the n/3 transparent cubes |
| CubeRenderer.SumOfCubesSizes | Example/Source/Examples/Private/Advanced/InstancedCubes/CubeRendererDrawInstanced/CubeRendererDrawInstanced.cpp:373-389 | the batches hold together as many cubes as their size sequence adds up to |
| CubeRenderer.SolidBeforeTransparent | Example/Source/Examples/Private/Advanced/InstancedCubes/CubeRendererDrawInstanced/CubeRendererDrawInstanced.cpp:382-389 | no solid batch comes after a transparent one |
| CubeRenderer.CubeRendererDrawInstanced.SetNumberOfCubes | Example/Source/Examples/Private/Advanced/InstancedCubes/CubeRendererDrawInstanced/CubeRendererDrawInstanced.cpp:350-394 | previous batches are discarded, the new batches are the solid-then-transparent plan, and the reusable buffer is cleared and re-recorded for them |
| CubeRenderer.CubeRendererDrawInstanced.FillReusableCommandBuffer | Example/Source/Examples/Private/Advanced/InstancedCubes/CubeRendererDrawInstanced/CubeRendererDrawInstanced.cpp:453-494 | from an empty buffer it records root signature, groups 0, 1 and 3, vertex array, and then one entry per batch in batch order, inside a debug event in debug builds |
| CubeRenderer.ReusableRecordsOrder | Example/Source/Examples/Private/Advanced/InstancedCubes/CubeRendererDrawInstanced/CubeRendererDrawInstanced.cpp:467-494 | the recorded setup comes before every batch entry, so each draw finds a root signature, a group and a vertex array bound before it |
| CubeRenderer.BatchDraws | Example/Source/Examples/Private/Advanced/InstancedCubes/CubeRendererDrawInstanced/CubeRendererDrawInstanced.cpp:482-493 | one draw entry per batch, entry i for batch i |
| CubeRenderer.FrameRecords | Example/Source/Examples/Private/Advanced/InstancedCubes/CubeRendererDrawInstanced/CubeRendererDrawInstanced.cpp:396-447 | 2 to 4 records ending in the nested dispatch; a uniform-buffer copy appears iff the dynamic VS buffer exists, and the MVP uniform iff the static VS buffer does not |
| CubeRenderer.FrameRecordsByCapability | Example/Source/Examples/Private/Advanced/InstancedCubes/CubeRendererDrawInstanced/CubeRendererDrawInstanced.cpp:285-305 | with uniform-buffer support a frame records the 8-byte and 12-byte copies and the dispatch; without it, the two uniforms, the MVP matrix and the dispatch |
| CubeRenderer.CubeRendererDrawInstanced.FillCommandBuffer | Example/Source/Examples/Private/Advanced/InstancedCubes/CubeRendererDrawInstanced/CubeRendererDrawInstanced.cpp:396-447 | the target buffer gains exactly the frame records after what it already held |
| SceneLoader.ParseItem | Source/Renderer/Public/Resource/Scene/Loader/SceneResourceLoader.cpp:46-71 | an item consumes its 8-byte header and, only if it was created and its size is not zero, exactly that many payload bytes, which it receives |
| SceneLoader.ParseItems | Source/Renderer/Public/Resource/Scene/Loader/SceneResourceLoader.cpp:84-87 | reading a node's items keeps only created ones, at most the count, exactly the count when every item is created |
| SceneLoader.ParseNode | Source/Renderer/Public/Resource/Scene/Loader/SceneResourceLoader.cpp:73-93 | a refused node consumes only its node record; a created node keeps its transform and reads its items |
| SceneLoader.ParseNodeList | Source/Renderer/Public/Resource/Scene/Loader/SceneResourceLoader.cpp:104-108 | count nodes are read in order; only created ones are kept, all of them when every node is created |
| SceneLoader.ParseNodes | Source/Renderer/Public/Resource/Scene/Loader/SceneResourceLoader.cpp:95-109 | the nodes header must announce at least one node (else NoNodes); then that many nodes are read |
| SceneLoader.ParseScene | Source/Renderer/Public/Resource/Scene/Loader/SceneResourceLoader.cpp:146-149 | the scene header is skipped before anything else is read |
| SceneLoader.ParseItemsConsumes | Source/Renderer/Public/Resource/Scene/Loader/SceneResourceLoader.cpp:46-71 | items consume their headers plus exactly the payloads of the created items |
| SceneLoader.ParseNodeConsumes | Source/Renderer/Public/Resource/Scene/Loader/SceneResourceLoader.cpp:73-93 | with every item created, a created node consumes its record, its item headers and its payloads |
| SceneLoader.ParseNodeListConsumes | Source/Renderer/Public/Resource/Scene/Loader/SceneResourceLoader.cpp:104-108 | with everything created, a node list consumes the sum of its nodes' sizes |
| SceneLoader.ParseNodesConsumes | Source/Renderer/Public/Resource/Scene/Loader/SceneResourceLoader.cpp:46-109 | with everything created, the bytes consumed are the nodes header plus, per node, its record plus, per item, its header and payload |
| SceneLoader.ParseItemsPrefix | Source/Renderer/Public/Resource/Scene/Loader/SceneResourceLoader.cpp:84-87 | if all items can be read, so can the first i |
| SceneLoader.ParseNodeListPrefix | Source/Renderer/Public/Resource/Scene/Loader/SceneResourceLoader.cpp:105-108 | if all nodes can be read, so can the first i |
| SceneLoader.ParseItemsNext | Source/Renderer/Public/Resource/Scene/Loader/SceneResourceLoader.cpp:84-87 | reading item i + 1 extends the items read so far by that item, if it was created |
| SceneLoader.ParseNodeListNext | Source/Renderer/Public/Resource/Scene/Loader/SceneResourceLoader.cpp:105-108 | reading node i + 1 extends the nodes read so far by that node, if it was created |
| SceneLoader.MemoryFile.Read | Source/Renderer/Public/Resource/Scene/Loader/SceneResourceLoader.cpp:50 | a read copies the next bytes out and advances the cursor past them |
| SceneLoader.AttachItem | Source/Renderer/Public/Resource/Scene/Loader/SceneResourceLoader.cpp:53 | a created item is attached to the node created last; every other node is unchanged |
| SceneLoader.AttachThenPayload | Source/Renderer/Public/Resource/Scene/Loader/SceneResourceLoader.cpp:53-62 | creating an item and then deserializing its payload gives the item with that payload |
| SceneLoader.SceneResource.CreateSceneNode | Source/Renderer/Public/Resource/Scene/Loader/SceneResourceLoader.cpp:80 | a node is added exactly when the scene accepts its transform |
| SceneLoader.SceneResource.CreateSceneItem | Source/Renderer/Public/Resource/Scene/Loader/SceneResourceLoader.cpp:53 | an item is added to the last node exactly when the scene accepts its type |
| SceneLoader.SceneResource.DeserializeItem | Source/Renderer/Public/Resource/Scene/Loader/SceneResourceLoader.cpp:62 | the payload goes to the item created last |
| SceneLoader.ItemDeserialization | Source/Renderer/Public/Resource/Scene/Loader/SceneResourceLoader.cpp:46-71 | the cursor ends where the item's parse ends, and the scene gains exactly the parsed item |
| SceneLoader.AttachToLast | Source/Renderer/Public/Resource/Scene/Loader/SceneResourceLoader.cpp:84-87 | attaching the next item to the last node is appending it to that node's items |
| SceneLoader.NodeDeserialization | Source/Renderer/Public/Resource/Scene/Loader/SceneResourceLoader.cpp:73-93 | the cursor ends where the node's parse ends, and the scene gains exactly the parsed node with its items |
| SceneLoader.NodesDeserialization | Source/Renderer/Public/Resource/Scene/Loader/SceneResourceLoader.cpp:95-109 | after the nodes header, exactly the announced nodes are read, in order, into the scene |
| SceneLoader.SceneResourceLoader.constructor | Source/Renderer/Public/Resource/Scene/Loader/SceneResourceLoader.cpp:129-133 | the loader is bound to its capabilities, memory file and scene resource |
| SceneLoader.SceneResourceLoader.OnProcessing | Source/Renderer/Public/Resource/Scene/Loader/SceneResourceLoader.cpp:141-158 | the scene header is read first; the nodes are read here iff the RHI is natively multithreaded |
| SceneLoader.SceneResourceLoader.OnDispatch | Source/Renderer/Public/Resource/Scene/Loader/SceneResourceLoader.cpp:160-172 | the nodes are read here iff the RHI is not natively multithreaded; the result is always "fully loaded" |
| SceneLoader.SceneResourceLoader.ProcessThenDispatch | Source/Renderer/Public/Resource/Scene/Loader/SceneResourceLoader.cpp:151-168 | whichever the capability, the two phases together read the scene exactly once |
| VolumeSceneItem.IndicesInRange | Source/Renderer/Public/Resource/Scene/Item/Volume/VolumeSceneItem.cpp:94-129 | 8 vertices and 36 16-bit indices, each below 8 |
| VolumeSceneItem.TrianglesOnFaces | Source/Renderer/Public/Resource/Scene/Item/Volume/VolumeSceneItem.cpp:109-129 | every corner of triangle t lies on the face its comment names (back, front, left, right, top, bottom) |
| VolumeSceneItem.CornerSigns | Source/Renderer/Public/Resource/Scene/Item/Volume/VolumeSceneItem.cpp:80-104 | the vertex positions are the cube corners of the drawing: x, y and z signs as a closed form of the vertex number |
| VolumeSceneItem.FacesCovered | Source/Renderer/Public/Resource/Scene/Item/Volume/VolumeSceneItem.cpp:94-129 | a vertex lies on a face iff that face's two triangles use it: each face's index pairs cover exactly its four corners |
| VolumeSceneItem.FaceTableBackFront | Source/Renderer/Public/Resource/Scene/Item/Volume/VolumeSceneItem.cpp:111-116 | the back face is z = −½, the front z = +½, and their six indices are the listed ones |
| VolumeSceneItem.FaceTableLeftRight | Source/Renderer/Public/Resource/Scene/Item/Volume/VolumeSceneItem.cpp:117-122 | the left face is x = −½, the right x = +½, and their six indices are the listed ones |
| VolumeSceneItem.FaceTableTopBottom | Source/Renderer/Public/Resource/Scene/Item/Volume/VolumeSceneItem.cpp:123-128 | the top face is y = +½, the bottom y = −½, and their six indices are the listed ones |
| VolumeSceneItem.VertexLayoutPerSlot | Source/Renderer/Public/Resource/Scene/Item/Volume/VolumeSceneItem.cpp:51-78 | slot 0: the position alone, filling its 12-byte stride, per vertex; slot 1: the draw ID alone, filling 4 bytes, once per instance |
| VolumeSceneItem.VolumeVertexArrayDescription | Source/Renderer/Public/Resource/Scene/Item/Volume/VolumeSceneItem.cpp:105-134 | every attribute's slot has a buffer; the position buffer holds the 8 vertices, the second buffer is the shared draw-ID buffer, and the index buffer is 16-bit with 36 indices |
| VolumeSceneItem.VertexArray.constructor | Source/Renderer/Public/Resource/Scene/Item/Volume/VolumeSceneItem.cpp:134 | a new vertex array has no references yet |
| VolumeSceneItem.VertexArray.AddReference | Source/Renderer/Public/Resource/Scene/Item/Volume/VolumeSceneItem.cpp:192 | the count grows by one |
| VolumeSceneItem.VertexArray.ReleaseReference | Source/Renderer/Public/Resource/Scene/Item/Volume/VolumeSceneItem.cpp:204 | the count shrinks by one, and the remaining count is returned |
| VolumeSceneItem.CreateVolumeVertexArray | Source/Renderer/Public/Resource/Scene/Item/Volume/VolumeSceneItem.cpp:48-135 | a fresh vertex array with the volume layout over the given draw-ID buffer |
| VolumeSceneItem.SharedVertexArray.constructor | Source/Renderer/Public/Resource/Scene/Item/Volume/VolumeSceneItem.cpp:42 | the global starts as a null pointer, with nothing accounted for |
| VolumeSceneItem.VolumeRenderable | Source/Renderer/Public/Resource/Scene/Item/Volume/VolumeSceneItem.cpp:175 | the renderable uses the given vertex array and material, and draws all 36 indices from index 0, indexed, for one instance, without a skeleton |
| VolumeSceneItem.VolumeSceneItem.constructor | Source/Renderer/Public/Resource/Scene/Item/Volume/VolumeSceneItem.cpp:183-193 | on a null pointer a fresh vertex array is created and the global holds it (count 2 with this item); otherwise the shared one gains one reference; the count stays 1 + items + renderables |
| VolumeSceneItem.VolumeSceneItem.OnMaterialResourceCreated | Source/Renderer/Public/Resource/Scene/Item/Volume/VolumeSceneItem.cpp:168-177 | the cube renderable over the shared vertex array is added, holding one more reference |
| VolumeSceneItem.VolumeSceneItem.Destroy | Source/Renderer/Public/Resource/Scene/Item/Volume/VolumeSceneItem.cpp:195-208 | with a valid material the renderables are cleared first; the item's reference is released; when one reference (the global's) remains the pointer is nulled and the count reaches zero; the pointer is null exactly when no item is left |
| VolumeSceneItem.VolumeSceneItem.ReleaseRenderables | Source/Renderer/Public/Resource/Scene/Item/Volume/VolumeSceneItem.cpp:199-200 | clearing the renderables releases one reference per renderable |
| Resource.LoadingStatesEnumerated | Source/Renderer/Public/Resource/IResource.h:86-93 | the loading state is one of five distinct values |
| Resource.StoredDebugName | Source/Renderer/Public/Resource/IResource.h:116-121 | the buffer after a copy holds the name's first 255 characters, zeros after them, and always a zero in the last place |
| Resource.CStringOf | Source/Renderer/Public/Resource/IResource.h:111-114 | the string a buffer holds is its prefix up to the first zero |
| Resource.DebugNameReadBack | Source/Renderer/Public/Resource/IResource.h:116-121 | a stored name of fewer than 256 characters reads back intact; a longer one reads back as its first 255 characters |
| Resource.CStringStopsAtFirstZero | Source/Renderer/Public/Resource/IResource.h:111-114 | the string read ends at the first zero of the buffer |
| Resource.InsertListener | Source/Renderer/Public/Resource/IResource.h:157 | connecting keeps the listeners sorted and duplicate-free, adds the new one, and leaves the list unchanged for one already connected |
| Resource.SortedCons | Source/Renderer/Public/Resource/IResource.h:236 | a listener smaller than all others may be put first in the sorted list |
| Resource.RemoveListener | Source/Renderer/Public/Resource/IResource.h:158 | disconnecting keeps the list sorted, removes exactly that listener, and leaves the list unchanged if it was not connected |
| Resource.ConnectIdempotent | Source/Renderer/Public/Resource/IResource.h:157 | connecting a listener twice is connecting it once |
| Resource.DisconnectUndoesConnect | Source/Renderer/Public/Resource/IResource.h:157-158 | disconnecting a newly connected listener restores the previous list |
| Resource.IResource.constructor | Source/Renderer/Public/Resource/IResource.h:165-176 | a new resource has an all-zero debug name, no manager, invalid resource, asset and loader-type IDs, state UNLOADED and no listeners |
| Resource.IResource.DebugName | Source/Renderer/Public/Resource/IResource.h:111-114 | the debug name is a string shorter than 256 characters |
| Resource.IResource.SetDebugName | Source/Renderer/Public/Resource/IResource.h:116-121 | the copy loop leaves the buffer holding the stored form of the name, so it reads back as the name, cut to 255 characters |
| Resource.IResource.GetResourceManager | Source/Renderer/Public/Resource/IResource.h:124-128 | callable only with a manager set, and returns that manager |
| Resource.IResource.ConnectResourceListener | Source/Renderer/Public/Resource/IResource.h:157 | the listener list becomes the insertion of the listener; no other field changes |
| Resource.IResource.DisconnectResourceListener | Source/Renderer/Public/Resource/IResource.h:158 | the listener list becomes the removal of the listener; no other field changes |
| Resource.IResource.SetResourceManager | Source/Renderer/Public/Resource/IResource.h:194-197 | only the manager changes |
| Resource.IResource.SetAssetId | Source/Renderer/Public/Resource/IResource.h:199-202 | only the asset ID changes |
| Resource.IResource.SetResourceLoaderTypeId | Source/Renderer/Public/Resource/IResource.h:204-207 | only the loader type ID changes |
| Resource.IResource.SetLoadingState | Source/Renderer/Public/Resource/IResource.h:209 | only the loading state changes |
| Resource.IResource.InitializeElement | Source/Renderer/Public/Resource/IResource.h:214-227 | requires the fully fresh state and sets only the resource ID |
| Resource.FreshMayBeDestroyed | Source/Renderer/Public/Resource/IResource.h:178-188 | a fresh element passes every destructor check |
| Resource.InitializedMustBeDeinitialized | Source/Renderer/Public/Resource/IResource.h:178-188 | an element with a valid resource ID fails the destructor checks and is not fresh |
| MeshResourceManager.DrawIdLayout | Source/Renderer/Public/Resource/Mesh/MeshResourceManager.cpp:46-60 | one UINT_1 attribute at slot 0 filling a 4-byte stride, once per instance; the draw-ID vertex array binds its slot and has no index buffer |
| MeshResourceManager.DrawIdVertexArray | Source/Renderer/Public/Resource/Mesh/MeshResourceManager.cpp:201-202 | the draw-ID vertex array has the single 16384-byte draw-ID buffer |
| MeshResourceManager.FillDrawIds | Source/Renderer/Public/Resource/Mesh/MeshResourceManager.cpp:187-191 | the loop leaves drawIds[i] = i for all 4096 entries |
| MeshResourceManager.DrawIdBufferContents | Source/Renderer/Public/Resource/Mesh/MeshResourceManager.cpp:187-193 | the draw-ID buffer is 4096·4 bytes and the u32 at offset 4i reads back as i |
| MeshResourceManager.ChooseResourceLoaderTypeId | Source/Renderer/Public/Resource/Mesh/MeshResourceManager.cpp:93-97 | an invalid loader type ID becomes the mesh loader's, a valid one passes through; the result is always valid |
| MeshResourceManager.CreateResourceLoaderInstance | Source/Renderer/Public/Resource/Mesh/MeshResourceManager.cpp:158-175 | a mesh loader iff the mesh type ID; an OpenVR loader iff OpenVR support and its type ID; otherwise none |
| MeshResourceManager.DefaultLoaderExists | Source/Renderer/Public/Resource/Mesh/MeshResourceManager.cpp:91-101 | a load without a loader type ID always finds the mesh loader |
| MeshResourceManager.IdRange | Source/Renderer/Public/Resource/Mesh/MeshResourceManager.cpp:184 | the n IDs below n |
| MeshResourceManager.UnusedIdExists | Source/Renderer/Public/Resource/Mesh/MeshResourceManager.cpp:184 | while fewer than 4096 resources exist, some ID below 4096 is free |
| MeshResourceManager.MeshResourceManager.constructor | Source/Renderer/Public/Resource/Mesh/MeshResourceManager.cpp:181-203 | no resources, no load requests, no LODs to remove, and a draw-ID buffer whose entry i reads back as i for all 4096 entries, wrapped in the draw-ID vertex array |
| MeshResourceManager.MeshResourceManager.LoadMeshResourceByAssetId | Source/Renderer/Public/Resource/Mesh/MeshResourceManager.cpp:91-101 | the request is passed on with the chosen loader type ID; nothing else changes |
| MeshResourceManager.MeshResourceManager.CreateEmptyMeshResourceByAssetId | Source/Renderer/Public/Resource/Mesh/MeshResourceManager.cpp:103-108 | a fresh resource under a new valid ID, with the asset ID and state LOADED, is added; that ID is returned |
| MeshResourceManager.MeshResourceManager.SetInvalidResourceId | Source/Renderer/Public/Resource/Mesh/MeshResourceManager.cpp:110-118 | the returned ID is invalid; the listener is disconnected from the resource iff the ID named one; that resource's other fields, and every other resource, are unchanged |
| MaterialTechnique.Dirty | Source/Renderer/Public/Resource/Material/MaterialTechnique.h:237-242 | the group needs rebuilding and every other field is kept |
| MaterialTechnique.WithoutTextures | Source/Renderer/Public/Resource/Material/MaterialTechnique.h:219-223 | no textures, the group needs rebuilding, every other field is kept |
| MaterialTechnique.WithStructuredBuffer | Source/Renderer/Public/Resource/Material/MaterialTechnique.h:142-146 | exactly the root parameter index and the buffer change |
| MaterialTechnique.DirtyIdempotent | Source/Renderer/Public/Resource/Material/MaterialTechnique.h:237-242 | making the group dirty twice is making it dirty once |
| MaterialTechnique.WithoutTexturesIdempotent | Source/Renderer/Public/Resource/Material/MaterialTechnique.h:219-223 | clearing twice is clearing once, and a cleared technique is already dirty |
| MaterialTechnique.StructuredBufferKeepsRebuild | Source/Renderer/Public/Resource/Material/MaterialTechnique.h:142-146 | changing the structured buffer does not revive a dropped group |
| MaterialTechnique.MaterialTechnique.constructor | Source/Renderer/Public/Resource/Material/MaterialTechnique.h:274-280 | a new technique keeps its two IDs and the given hash, with an invalid root parameter index, no structured buffer, no textures and no group |
| MaterialTechnique.MaterialTechnique.GetMaterialTechniqueId | Source/Renderer/Public/Resource/Material/MaterialTechnique.h:116-119 | returns the stored technique ID and changes nothing |
| MaterialTechnique.MaterialTechnique.GetMaterialBlueprintResourceId | Source/Renderer/Public/Resource/Material/MaterialTechnique.h:128-131 | returns the stored blueprint resource ID and changes nothing |
| MaterialTechnique.MaterialTechnique.GetSerializedGraphicsPipelineStateHash | Source/Renderer/Public/Resource/Material/MaterialTechnique.h:155-158 | returns the stored hash and changes nothing |
| MaterialTechnique.MaterialTechnique.SetStructuredBufferPtr | Source/Renderer/Public/Resource/Material/MaterialTechnique.h:142-146 | the new state is the old one with the structured buffer replaced |
| MaterialTechnique.MaterialTechnique.ClearTextures | Source/Renderer/Public/Resource/Material/MaterialTechnique.h:219-223 | the new state is the old one without textures and with the group dropped |
| MaterialTechnique.MaterialTechnique.MakeResourceGroupDirty | Source/Renderer/Public/Resource/Material/MaterialTechnique.h:237-242 | the new state is the old one with only the group dropped |
| FileFormatHeader.DecodeEncodeFileFormatHeader | Source/Renderer/Public/Resource/Material/Loader/MaterialFileFormat.h:48-49 | the format header reads back as written, wherever it sits |
| FileFormatHeader.CheckFileFormatHeader | Source/Renderer/Public/Resource/Material/Loader/MaterialFileFormat.h:60-61 | a file is accepted iff it holds a header with the expected type and version; a short file is reported as truncated, and only then |
| MaterialFileFormat.DefaultTechnique | Source/Renderer/Public/Resource/Material/Loader/MaterialFileFormat.h:71-75 | a default technique has an invalid technique ID |
| MaterialFileFormat.EncodeMaterialHeader | Source/Renderer/Public/Resource/Material/Loader/MaterialFileFormat.h:63-70 | the packed header is 8 bytes |
| MaterialFileFormat.DecodeEncodeMaterialHeader | Source/Renderer/Public/Resource/Material/Loader/MaterialFileFormat.h:63-70 | numberOfTechniques then numberOfProperties read back as written |
| MaterialFileFormat.EncodeDecodeMaterialHeader | Source/Renderer/Public/Resource/Material/Loader/MaterialFileFormat.h:63-70 | any 8 bytes are the packing of the header read from them |
| MaterialFileFormat.EncodeTechnique | Source/Renderer/Public/Resource/Material/Loader/MaterialFileFormat.h:71-75 | the packed technique is 8 bytes |
| MaterialFileFormat.DecodeEncodeTechnique | Source/Renderer/Public/Resource/Material/Loader/MaterialFileFormat.h:71-75 | technique ID then blueprint asset ID read back as written |
| MaterialFileFormat.EncodeDecodeTechnique | Source/Renderer/Public/Resource/Material/Loader/MaterialFileFormat.h:71-75 | any 8 bytes are the packing of the technique read from them |
| MaterialFileFormat.EncodeTechniques | Source/Renderer/Public/Resource/Material/Loader/MaterialFileFormat.h:51 | the techniques are packed back to back, 8 bytes each |
| MaterialFileFormat.DecodeTechniques | Source/Renderer/Public/Resource/Material/Loader/MaterialFileFormat.h:51 | exactly the announced number of techniques is read |
| MaterialFileFormat.DecodeEncodeTechniques | Source/Renderer/Public/Resource/Material/Loader/MaterialFileFormat.h:51 | a run of packed techniques reads back as written |
| MaterialFileFormat.DecodeMaterialContent | Source/Renderer/Public/Resource/Material/Loader/MaterialFileFormat.h:48-52 | after the format header, the header, the techniques and the properties are read; a file too short for what the header announces is rejected as truncated |
| MaterialFileFormat.DecodeMaterialFile | Source/Renderer/Public/Resource/Material/Loader/MaterialFileFormat.h:48-61 | a file is accepted only with the material type and version 3, and then holds exactly the announced techniques and properties |
| MaterialFileFormat.ForeignFormatRejected | Source/Renderer/Public/Resource/Material/Loader/MaterialFileFormat.h:60 | a file of another format type is rejected as such |
| MaterialFileFormat.MaterialHeaderPart | Source/Renderer/Public/Resource/Material/Loader/MaterialFileFormat.h:49-50 | the material header sits right after the format header |
| MaterialFileFormat.TechniquesPart | Source/Renderer/Public/Resource/Material/Loader/MaterialFileFormat.h:50-51 | the techniques follow the material header |
| MaterialFileFormat.PropertiesPart | Source/Renderer/Public/Resource/Material/Loader/MaterialFileFormat.h:51-52 | the properties follow the techniques |
| MaterialFileFormat.MaterialContentRoundTrip | Source/Renderer/Public/Resource/Material/Loader/MaterialFileFormat.h:48-52 | the content of a well-formed file reads back as written behind any format header |
| MaterialFileFormat.MaterialFileRoundTrip | Source/Renderer/Public/Resource/Material/Loader/MaterialFileFormat.h:48-76 | a well-formed material file reads back as written, whatever follows it |
| AssetPackageFileFormat.EncodeAssetPackageHeader | Source/Renderer/Public/Asset/Loader/AssetPackageFileFormat.h:54-60 | the packed header is 4 bytes |
| AssetPackageFileFormat.DecodeEncodeAssetPackageHeader | Source/Renderer/Public/Asset/Loader/AssetPackageFileFormat.h:54-60 | numberOfAssets reads back as written |
| AssetPackageFileFormat.DecodeAssetPackageFile | Source/Renderer/Public/Asset/Loader/AssetPackageFileFormat.h:40-58 | a file is accepted only with the asset package type and version 3, and then holds exactly the announced assets |
| AssetPackageFileFormat.AssetPackageFileRoundTrip | Source/Renderer/Public/Asset/Loader/AssetPackageFileFormat.h:40-60 | a well-formed package reads back as written, whatever follows it |
| AssetPackageFileFormat.ForeignFormatRejected | Source/Renderer/Public/Asset/Loader/AssetPackageFileFormat.h:51 | a file of another format type is rejected as such |

## Left out

- Floating point and randomness are not modelled:
  - The random texel values and colour factors of the cube texture are a parameter `texel`.
  - The float `ceil` of the batch count is integer ceiling division. This requires a per-batch limit above zero.
  - The MVP constants, the uniform values and the uniform-scale check of the volume item (VolumeSceneItem.cpp:158) are left out.
- CubeRenderer.CubeRendererDrawInstanced.SetNumberOfCubes: requires a per-batch limit above zero. The source divides by it in floating point and does not guard against zero.
- CubeRenderer.CubeRendererDrawInstanced.SetNumberOfCubes: the batch loops' counter is a signed 32-bit `int`, but the model counts on unbounded integers. With more than 2^31 − 1 solid cubes (more than about 3.2·10^9 cubes in total), the source's cast makes the counter negative. The first solid batch, and the batches after it until the wrapping decrement turns the counter positive again, then receive the counter cast back to `uint32_t`: far more cubes than the per-batch limit allows. The model instead proves every batch size lies between 1 and the limit.
- CubeRenderer.BatchSizes: a single-precision float `ceil` is not modelled. The model's batch count is the exact ceiling, while the float quotient loses precision above 2^24 cubes and can round the count down. For example, 16777217 cubes at a limit of 8388608 give two batches in the source and three in the model. The same unbounded-counter caveat as SetNumberOfCubes applies.
- The commands a batch records come from BatchDrawInstanced, which is not part of this model. Each batch records one placeholder entry.
- The sampler group is created against root parameter 2 (CubeRendererDrawInstanced.cpp:211) but bound at index 3 (line 477). Both indices are modelled as written. No link between the two is claimed.
- LZ4 decompression, the memory file and file I/O are not modelled. The loader works on the decompressed bytes through a cursor.
- SceneFileFormat.h is not part of this model. The model assumes these sizes:
  - a 4-byte scene header;
  - a 4-byte nodes header;
  - a node of a 40-byte opaque transform plus a u32 item count;
  - an 8-byte item header (type ID, size).
- The memory file's read asserts that it stays in bounds. The parser reports a short file as `Truncated`. The loader methods require a readable scene, which is that same contract.
- The nodes-header sanity assertion (number of nodes above zero) is an error value, `NoNodes`.
- Whether the scene resource creates a node or an item is decided by code that is not part of this model. It is a parameter (`nodeOk`, `itemOk`).
- The scene format has no encoder, so there is no scene round-trip lemma. The consumption lemmas state how many bytes a read takes.
- Concurrency is not modelled. Native multithreading is only a capability flag that chooses the loader phase.
- RefCount.h is not part of this model. Assumed semantics:
  - `releaseReference` returns the remaining count.
  - Assigning and clearing the smart pointer adds or drops one reference.
  - Each renderable that holds the vertex array holds one reference.
- VolumeSceneItem.VolumeSceneItem.Destroy: the item invariant assumes that an item with renderables has a valid material resource ID, since renderables are only added once the material exists. Whether MaterialSceneItem can later reset the ID is not part of this model. If it could, the destructor would keep the renderables and their references (VolumeSceneItem.cpp:197-201), and the shared vertex array would not be released.
- VolumeSceneItem.VolumeSceneItem.OnMaterialResourceCreated: the debug name and `updateCachedRenderablesData` are not modelled.
- VolumeSceneItem.TrianglesOnFaces: face membership only. The winding order of each triangle is not proved, because the cross products on the constant tables exceed the solver's budget.
- IResource.cpp is not part of this model:
  - `setLoadingState` is modelled as a plain setter, and the listener notifications are not modelled.
  - `deinitializeElement` is not modelled.
  - The listener list is kept sorted by listener identity, assumed from the typedef's name.
- Resource.IResource.SetDebugName: the source asserts that the name is shorter than 256 characters. The model also accepts longer names and stores them cut to 255 characters, like `strncpy` does.
- The debug-name check in the destructor and in `initializeElement` is modelled as "the first character is zero".
- ResourceManagerTemplate is not part of this model:
  - MeshResourceManager.MeshResourceManager.CreateEmptyMeshResourceByAssetId: picks any unused ID below 4096 rather than the template's allocation order.
  - MeshResourceManager.MeshResourceManager.LoadMeshResourceByAssetId: records the request in a log instead of loading.
- The OpenVR mesh loader, compiled in only with `RENDERER_OPENVR`, is a flag. The two type IDs are placeholder constants.
- MaterialTechnique.cpp is not part of this model:
  - The constructor's initial values are assumed: invalid index, no buffer, no textures, no group.
  - The hash is passed in.
  - `fillCommandBuffer`, `getTextures` and the buffer-manager code are not modelled.
- `STRING_ID` hashing is not modelled. FORMAT_TYPE values are distinct placeholder constants.
- The format header is modelled as type and version only. The header the reader also uses for decompression sizes belongs to code that is not part of this model.
- Material properties and assets are fixed-size opaque records whose size is a parameter. MaterialProperty.h and the asset layout are not part of this model.
- Math.h and the other context headers are not modelled: their logic is in source files outside this model.
