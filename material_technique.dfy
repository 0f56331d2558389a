/**
 * A material technique: one way of drawing a material, tied to a material
 * blueprint. It keeps the structured buffer it binds, the textures it uses,
 * the hash of its serialized pipeline state and a cached resource group; a
 * null resource group is a legal state that means the group has to be
 * rebuilt before the next use.
 */
module MaterialTechnique {
  import opened Bytes
  import opened Rhi

  /** One texture the technique binds: its root parameter, the material property it comes from, its resource. */
  datatype Texture = Texture(rootParameterIndex: u32, materialProperty: nat, textureResourceId: u32)

  /** Everything a technique holds, as one value. */
  datatype TechniqueState = TechniqueState(
    materialTechniqueId: u32,
    materialBlueprintResourceId: u32,
    structuredBufferRootParameterIndex: u32,
    structuredBufferPtr: Option<ResourceHandle>,
    textures: seq<Texture>,
    serializedGraphicsPipelineStateHash: u32,
    resourceGroup: Option<ResourceHandle>)

  /** The resource group has to be rebuilt before the technique is bound again. */
  predicate NeedsRebuild(s: TechniqueState)
  {
    s.resourceGroup == None
  }

  /** makeResourceGroupDirty: forget the cached group, nothing else. */
  function Dirty(s: TechniqueState): (r: TechniqueState)
    ensures NeedsRebuild(r)
    ensures r.textures == s.textures && r.structuredBufferPtr == s.structuredBufferPtr
    ensures r.structuredBufferRootParameterIndex == s.structuredBufferRootParameterIndex
    ensures r.materialTechniqueId == s.materialTechniqueId && r.materialBlueprintResourceId == s.materialBlueprintResourceId
    ensures r.serializedGraphicsPipelineStateHash == s.serializedGraphicsPipelineStateHash
  {
    s.(resourceGroup := None)
  }

  /** clearTextures: no textures, and the group they were bound through is forgotten. */
  function WithoutTextures(s: TechniqueState): (r: TechniqueState)
    ensures r.textures == [] && NeedsRebuild(r)
    ensures r.structuredBufferPtr == s.structuredBufferPtr
    ensures r.structuredBufferRootParameterIndex == s.structuredBufferRootParameterIndex
    ensures r.materialTechniqueId == s.materialTechniqueId && r.materialBlueprintResourceId == s.materialBlueprintResourceId
    ensures r.serializedGraphicsPipelineStateHash == s.serializedGraphicsPipelineStateHash
  {
    Dirty(s.(textures := []))
  }

  /** setStructuredBufferPtr: the root parameter index and the buffer, nothing else. */
  function WithStructuredBuffer(s: TechniqueState, rootParameterIndex: u32, structuredBufferPtr: Option<ResourceHandle>): (r: TechniqueState)
    ensures r.structuredBufferRootParameterIndex == rootParameterIndex && r.structuredBufferPtr == structuredBufferPtr
    ensures r.textures == s.textures && r.resourceGroup == s.resourceGroup
    ensures r.materialTechniqueId == s.materialTechniqueId && r.materialBlueprintResourceId == s.materialBlueprintResourceId
    ensures r.serializedGraphicsPipelineStateHash == s.serializedGraphicsPipelineStateHash
  {
    s.(structuredBufferRootParameterIndex := rootParameterIndex, structuredBufferPtr := structuredBufferPtr)
  }

  /** Making the group dirty twice is making it dirty once. */
  lemma DirtyIdempotent(s: TechniqueState)
    ensures Dirty(Dirty(s)) == Dirty(s)
  {
  }

  /** Clearing textures is also idempotent, and leaves nothing for a later dirty call to do. */
  lemma WithoutTexturesIdempotent(s: TechniqueState)
    ensures WithoutTextures(WithoutTextures(s)) == WithoutTextures(s)
    ensures Dirty(WithoutTextures(s)) == WithoutTextures(s)
  {
  }

  /** A dirty group stays dirty when the structured buffer changes. */
  lemma StructuredBufferKeepsRebuild(s: TechniqueState, rootParameterIndex: u32, structuredBufferPtr: Option<ResourceHandle>)
    requires NeedsRebuild(s)
    ensures NeedsRebuild(WithStructuredBuffer(s, rootParameterIndex, structuredBufferPtr))
  {
  }

  class MaterialTechnique {
    const materialTechniqueId: u32
    const materialBlueprintResourceId: u32
    var structuredBufferRootParameterIndex: u32
    var structuredBufferPtr: Option<ResourceHandle>
    var textures: seq<Texture>
    var serializedGraphicsPipelineStateHash: u32
    var resourceGroup: Option<ResourceHandle>

    function State(): TechniqueState
      reads this
    {
      TechniqueState(materialTechniqueId, materialBlueprintResourceId, structuredBufferRootParameterIndex,
        structuredBufferPtr, textures, serializedGraphicsPipelineStateHash, resourceGroup)
    }

    /**
     * The two identifiers, no structured buffer, no textures and no group yet;
     * the pipeline-state hash is computed elsewhere and passed in.
     */
    constructor (materialTechniqueId: u32, materialBlueprintResourceId: u32, serializedGraphicsPipelineStateHash: u32)
      ensures State() == TechniqueState(materialTechniqueId, materialBlueprintResourceId, INVALID_U32, None, [],
        serializedGraphicsPipelineStateHash, None)
    {
      this.materialTechniqueId := materialTechniqueId;
      this.materialBlueprintResourceId := materialBlueprintResourceId;
      structuredBufferRootParameterIndex := INVALID_U32;
      structuredBufferPtr := None;
      textures := [];
      this.serializedGraphicsPipelineStateHash := serializedGraphicsPipelineStateHash;
      resourceGroup := None;
    }

    method GetMaterialTechniqueId() returns (id: u32)
      ensures id == State().materialTechniqueId
    {
      id := materialTechniqueId;
    }

    method GetMaterialBlueprintResourceId() returns (id: u32)
      ensures id == State().materialBlueprintResourceId
    {
      id := materialBlueprintResourceId;
    }

    method GetSerializedGraphicsPipelineStateHash() returns (hash: u32)
      ensures hash == State().serializedGraphicsPipelineStateHash
    {
      hash := serializedGraphicsPipelineStateHash;
    }

    method SetStructuredBufferPtr(rootParameterIndex: u32, structuredBufferPtr: Option<ResourceHandle>)
      modifies this
      ensures State() == WithStructuredBuffer(old(State()), rootParameterIndex, structuredBufferPtr)
    {
      structuredBufferRootParameterIndex := rootParameterIndex;
      this.structuredBufferPtr := structuredBufferPtr;
    }

    method ClearTextures()
      modifies this
      ensures State() == WithoutTextures(old(State()))
    {
      textures := [];
      MakeResourceGroupDirty();
    }

    method MakeResourceGroupDirty()
      modifies this
      ensures State() == Dirty(old(State()))
    {
      resourceGroup := None;
    }
  }
}
