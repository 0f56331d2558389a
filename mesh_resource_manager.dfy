/**
 * The mesh resource manager: it owns the draw-ID vertex buffer (the numbers
 * 0 to 4095, fed once per instance so that instanced draws can tell their
 * instances apart) and its vertex array, picks the default loader type for
 * mesh loads, creates empty mesh resources, and turns a mesh resource ID
 * held by a client into the invalid ID.
 */
module MeshResourceManager {
  import opened Bytes
  import opened Rhi
  import opened Resource

  /** Elements the internal resource manager template has room for; also the number of draw IDs. */
  const MAXIMUM_NUMBER_OF_ELEMENTS: nat := 4096

  /** Bytes of the draw-ID vertex buffer: 4096 uint32_t values. */
  const DRAW_ID_BUFFER_BYTES: nat := 16384

  /** The hashed type ID of the mesh resource loader (the hash itself is not modelled). */
  const MESH_RESOURCE_LOADER_TYPE_ID: u32 := 1

  /** The hashed type ID of the OpenVR mesh resource loader, compiled in only with OpenVR support. */
  const OPENVR_MESH_RESOURCE_LOADER_TYPE_ID: u32 := 2

  // Handles of the RHI objects the manager creates.
  const DRAW_ID_VERTEX_BUFFER: ResourceHandle := 1
  const DRAW_ID_VERTEX_ARRAY: ResourceHandle := 2

  // ---------------------------------------------------------------------
  // Draw IDs
  // ---------------------------------------------------------------------

  /** One uint32_t per instance, from input slot 0. */
  const DRAW_ID_VERTEX_ATTRIBUTES: seq<VertexAttribute> := [
    VertexAttribute(UINT_1, "drawId", "DRAWID", 0, 0, 0, 4, 1)
  ]

  lemma DrawIdLayout()
    ensures |DRAW_ID_VERTEX_ATTRIBUTES| == 1 && TilesStride(DRAW_ID_VERTEX_ATTRIBUTES)
    ensures DRAW_ID_VERTEX_ATTRIBUTES[0].inputSlot == 0 && DRAW_ID_VERTEX_ATTRIBUTES[0].strideInBytes == 4
    ensures DRAW_ID_VERTEX_ATTRIBUTES[0].instancesPerElement == 1
    ensures SlotsBound(DrawIdVertexArray()) && DrawIdVertexArray().indexBuffer == None
  {
  }

  /** The vertex array over the draw-ID buffer alone, without an index buffer. */
  function DrawIdVertexArray(): (v: VertexArrayDescription)
    ensures v.vertexBuffers == [VertexBuffer(DRAW_ID_VERTEX_BUFFER, DRAW_ID_BUFFER_BYTES)]
  {
    VertexArrayDescription(DRAW_ID_VERTEX_ATTRIBUTES, [VertexBuffer(DRAW_ID_VERTEX_BUFFER, DRAW_ID_BUFFER_BYTES)], None)
  }

  /** Fills the local array the draw-ID buffer is created from: entry i holds i. */
  method FillDrawIds() returns (drawIds: array<u32>)
    ensures fresh(drawIds) && drawIds.Length == MAXIMUM_NUMBER_OF_ELEMENTS
    ensures forall i :: 0 <= i < drawIds.Length ==> drawIds[i] == i
  {
    drawIds := new u32[MAXIMUM_NUMBER_OF_ELEMENTS];
    var i := 0;
    while i < MAXIMUM_NUMBER_OF_ELEMENTS
      invariant 0 <= i <= MAXIMUM_NUMBER_OF_ELEMENTS
      invariant forall k :: 0 <= k < i ==> drawIds[k] == k
    {
      drawIds[i] := i;
      i := i + 1;
    }
  }

  /** The buffer the GPU sees: 16384 bytes, and the uint32_t at byte 4 * i is i. */
  lemma DrawIdBufferContents(drawIds: seq<u32>, i: nat)
    requires |drawIds| == MAXIMUM_NUMBER_OF_ELEMENTS && i < MAXIMUM_NUMBER_OF_ELEMENTS
    requires forall k :: 0 <= k < |drawIds| ==> drawIds[k] == k
    ensures |EncodeU32s(drawIds)| == DRAW_ID_BUFFER_BYTES
    ensures DecodeU32(EncodeU32s(drawIds), 4 * i) == i
  {
    DecodeEncodeU32s(drawIds, i);
  }

  // ---------------------------------------------------------------------
  // Loader types
  // ---------------------------------------------------------------------

  /** The loader type a mesh load uses: the given one, or the mesh loader's when none is given. */
  function ChooseResourceLoaderTypeId(resourceLoaderTypeId: u32): (r: u32)
    ensures IsValid(r)
    ensures IsValid(resourceLoaderTypeId) ==> r == resourceLoaderTypeId
    ensures !IsValid(resourceLoaderTypeId) ==> r == MESH_RESOURCE_LOADER_TYPE_ID
  {
    if IsValid(resourceLoaderTypeId) then resourceLoaderTypeId else MESH_RESOURCE_LOADER_TYPE_ID
  }

  datatype ResourceLoaderKind = MeshResourceLoader | OpenVRMeshResourceLoader

  /** The loader a type ID names; any other ID is an error (asserted) and yields no loader. */
  function CreateResourceLoaderInstance(resourceLoaderTypeId: u32, openVrSupport: bool): (r: Option<ResourceLoaderKind>)
    ensures r == Some(MeshResourceLoader) <==> resourceLoaderTypeId == MESH_RESOURCE_LOADER_TYPE_ID
    ensures r == Some(OpenVRMeshResourceLoader) <==> openVrSupport && resourceLoaderTypeId == OPENVR_MESH_RESOURCE_LOADER_TYPE_ID
    ensures r == None <==>
      resourceLoaderTypeId != MESH_RESOURCE_LOADER_TYPE_ID
      && !(openVrSupport && resourceLoaderTypeId == OPENVR_MESH_RESOURCE_LOADER_TYPE_ID)
  {
    if resourceLoaderTypeId == MESH_RESOURCE_LOADER_TYPE_ID then Some(MeshResourceLoader)
    else if openVrSupport && resourceLoaderTypeId == OPENVR_MESH_RESOURCE_LOADER_TYPE_ID then Some(OpenVRMeshResourceLoader)
    else None
  }

  /** The default loader type always has a loader. */
  lemma DefaultLoaderExists(resourceLoaderTypeId: u32, openVrSupport: bool)
    requires !IsValid(resourceLoaderTypeId)
    ensures CreateResourceLoaderInstance(ChooseResourceLoaderTypeId(resourceLoaderTypeId), openVrSupport) == Some(MeshResourceLoader)
  {
  }

  // ---------------------------------------------------------------------
  // The manager
  // ---------------------------------------------------------------------

  /** What a mesh load hands to the internal resource manager. */
  datatype LoadRequest = LoadRequest(assetId: u32, resourceListener: Option<ListenerHandle>, reload: bool, resourceLoaderTypeId: u32)

  /** The identifiers 0 .. n - 1. */
  function IdRange(n: nat): (r: set<u32>)
    requires n <= MAXIMUM_NUMBER_OF_ELEMENTS
    ensures |r| == n
    ensures forall id: u32 :: id in r <==> id < n
  {
    if n == 0 then {} else IdRange(n - 1) + {(n - 1) as u32}
  }

  lemma {:induction false} SubsetSize(a: set<u32>, b: set<u32>)
    requires a <= b
    ensures |a| <= |b|
    decreases |a|
  {
    if a != {} {
      var x :| x in a;
      SubsetSize(a - {x}, b - {x});
    }
  }

  /** Fewer resources than the capacity leave an identifier below the capacity unused. */
  lemma UnusedIdExists(ids: set<u32>)
    requires |ids| < MAXIMUM_NUMBER_OF_ELEMENTS
    ensures exists id: u32 :: id < MAXIMUM_NUMBER_OF_ELEMENTS && id !in ids
  {
    var range := IdRange(MAXIMUM_NUMBER_OF_ELEMENTS);
    if range <= ids {
      SubsetSize(range, ids);
      assert false;
    }
    var id :| id in range && id !in ids;
  }

  class MeshResourceManager {
    /** The internal resource manager's elements, by resource ID. */
    var resources: map<u32, IResource>
    var loadRequests: seq<LoadRequest>
    var numberOfTopMeshLodsToRemove: nat
    const drawIdVertexBuffer: VertexBuffer
    const drawIdVertexArray: VertexArrayDescription
    /** The contents the draw-ID vertex buffer was created with. */
    const drawIdBufferContents: seq<u8>

    ghost predicate Valid()
      reads this, resources.Values, set r | r in resources.Values :: r.debugName
    {
      forall id :: id in resources ==> resources[id].resourceId == id && resources[id].Valid()
    }

    constructor ()
      ensures Valid() && resources == map[] && loadRequests == [] && numberOfTopMeshLodsToRemove == 0
      ensures drawIdVertexBuffer == VertexBuffer(DRAW_ID_VERTEX_BUFFER, DRAW_ID_BUFFER_BYTES)
      ensures drawIdVertexArray == DrawIdVertexArray()
      ensures |drawIdBufferContents| == DRAW_ID_BUFFER_BYTES
      ensures forall i :: 0 <= i < MAXIMUM_NUMBER_OF_ELEMENTS ==> DecodeU32(drawIdBufferContents, 4 * i) == i
    {
      resources := map[];
      loadRequests := [];
      numberOfTopMeshLodsToRemove := 0;
      var drawIds := FillDrawIds();
      drawIdBufferContents := EncodeU32s(drawIds[..]);
      drawIdVertexBuffer := VertexBuffer(DRAW_ID_VERTEX_BUFFER, DRAW_ID_BUFFER_BYTES);
      drawIdVertexArray := DrawIdVertexArray();
      new;
      forall i | 0 <= i < MAXIMUM_NUMBER_OF_ELEMENTS
        ensures DecodeU32(drawIdBufferContents, 4 * i) == i
      {
        DrawIdBufferContents(drawIds[..], i);
      }
    }

    /** Passes the load on with the default loader type filled in. */
    method LoadMeshResourceByAssetId(assetId: u32, resourceListener: Option<ListenerHandle>, reload: bool, resourceLoaderTypeId: u32)
      modifies this
      ensures loadRequests == old(loadRequests) + [LoadRequest(assetId, resourceListener, reload, ChooseResourceLoaderTypeId(resourceLoaderTypeId))]
      ensures resources == old(resources) && numberOfTopMeshLodsToRemove == old(numberOfTopMeshLodsToRemove)
    {
      var typeId := resourceLoaderTypeId;
      if !IsValid(typeId) {
        typeId := MESH_RESOURCE_LOADER_TYPE_ID;
      }
      loadRequests := loadRequests + [LoadRequest(assetId, resourceListener, reload, typeId)];
    }

    /** A new resource for the asset, already LOADED; returns its ID. */
    method CreateEmptyMeshResourceByAssetId(assetId: u32) returns (meshResourceId: u32)
      requires Valid() && |resources| < MAXIMUM_NUMBER_OF_ELEMENTS
      modifies this
      ensures Valid()
      ensures meshResourceId !in old(resources) && meshResourceId in resources && IsValid(meshResourceId)
      ensures resources == old(resources)[meshResourceId := resources[meshResourceId]]
      ensures fresh(resources[meshResourceId])
      ensures resources[meshResourceId].loadingState == LOADED && resources[meshResourceId].assetId == assetId
      ensures loadRequests == old(loadRequests) && numberOfTopMeshLodsToRemove == old(numberOfTopMeshLodsToRemove)
    {
      UnusedIdExists(resources.Keys);
      var id: u32 :| id < MAXIMUM_NUMBER_OF_ELEMENTS && id !in resources;
      var meshResource := new IResource();
      meshResource.InitializeElement(id);
      meshResource.SetAssetId(assetId);
      meshResource.SetLoadingState(LOADED);
      resources := resources[id := meshResource];
      meshResourceId := meshResource.resourceId;
    }

    /** Disconnects the listener from the resource the ID names, if any; the ID becomes invalid. */
    method SetInvalidResourceId(meshResourceId: u32, resourceListener: ListenerHandle) returns (invalidated: u32)
      requires Valid()
      modifies if meshResourceId in resources then {resources[meshResourceId]} else {}
      ensures Valid() && resources == old(resources)
      ensures !IsValid(invalidated)
      ensures meshResourceId in resources ==>
        resources[meshResourceId].sortedResourceListeners
          == RemoveListener(old(resources[meshResourceId].sortedResourceListeners), resourceListener)
      ensures meshResourceId in resources ==>
        var r := resources[meshResourceId];
        && r.resourceManager == old(r.resourceManager) && r.resourceId == old(r.resourceId)
        && r.assetId == old(r.assetId) && r.resourceLoaderTypeId == old(r.resourceLoaderTypeId)
        && r.loadingState == old(r.loadingState) && r.debugName[..] == old(r.debugName[..])
      ensures forall id :: id in resources && id != meshResourceId ==>
        resources[id].sortedResourceListeners == old(resources[id].sortedResourceListeners)
    {
      if meshResourceId in resources {
        resources[meshResourceId].DisconnectResourceListener(resourceListener);
      }
      invalidated := INVALID_U32;
    }
  }
}
