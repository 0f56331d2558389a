/**
 * The part of the render hardware interface (RHI) that the renderer and the
 * examples rely on: capabilities, vertex-attribute layouts, root-signature
 * layouts, resource groups, and the command buffer as an append-only log of
 * tagged records. Backends and the dispatcher that interprets the records
 * are not modelled; a record is its tag and its arguments.
 */
module Rhi {
  import opened Bytes

  /** Identity of an RHI object (a native pointer in the engine). */
  type ResourceHandle = nat

  /** Read-only device limits and feature flags. */
  datatype Capabilities = Capabilities(
    maximumNumberOf2DTextureArraySlices: u32,
    maximumTextureBufferSize: u32,
    maximumUniformBufferSize: u32,
    nativeMultithreading: bool)

  // ---------------------------------------------------------------------
  // Vertex attributes
  // ---------------------------------------------------------------------

  datatype VertexAttributeFormat = FLOAT_1 | FLOAT_2 | FLOAT_3 | FLOAT_4 | UINT_1

  /** Bytes one attribute of the format occupies in a vertex. */
  function FormatSize(f: VertexAttributeFormat): (n: nat)
    ensures n % 4 == 0 && 4 <= n <= 16
  {
    match f
    case FLOAT_1 => 4
    case FLOAT_2 => 8
    case FLOAT_3 => 12
    case FLOAT_4 => 16
    case UINT_1 => 4
  }

  datatype VertexAttribute = VertexAttribute(
    format: VertexAttributeFormat,
    name: string,
    semanticName: string,
    semanticIndex: nat,
    inputSlot: nat,
    alignedByteOffset: nat,
    strideInBytes: nat,
    instancesPerElement: nat)

  function AttributeEnd(a: VertexAttribute): nat
  {
    a.alignedByteOffset + FormatSize(a.format)
  }

  /** The layout invariant: an attribute's bytes lie inside one stride. */
  predicate FitsStride(a: VertexAttribute)
  {
    AttributeEnd(a) <= a.strideInBytes
  }

  /**
   * Attributes interleaved in one input slot with no gaps: the first starts at
   * offset 0, each ends where the next begins, the last ends at the stride.
   */
  predicate TilesStride(attrs: seq<VertexAttribute>)
  {
    && |attrs| > 0
    && attrs[0].alignedByteOffset == 0
    && (forall i :: 0 <= i < |attrs| ==>
          attrs[i].inputSlot == attrs[0].inputSlot && attrs[i].strideInBytes == attrs[0].strideInBytes)
    && (forall i :: 0 <= i < |attrs| - 1 ==> AttributeEnd(attrs[i]) == attrs[i + 1].alignedByteOffset)
    && AttributeEnd(attrs[|attrs| - 1]) == attrs[0].strideInBytes
  }

  /** A tiled layout keeps every attribute inside the stride. */
  lemma {:induction false} TilesStrideFits(attrs: seq<VertexAttribute>)
    requires TilesStride(attrs)
    ensures forall i :: 0 <= i < |attrs| ==> FitsStride(attrs[i])
  {
    forall i | 0 <= i < |attrs|
      ensures FitsStride(attrs[i])
    {
      EndsBelowLast(attrs, i);
    }
  }

  lemma {:induction false} EndsBelowLast(attrs: seq<VertexAttribute>, i: nat)
    requires TilesStride(attrs) && i < |attrs|
    ensures AttributeEnd(attrs[i]) <= AttributeEnd(attrs[|attrs| - 1])
    decreases |attrs| - i
  {
    if i < |attrs| - 1 {
      EndsBelowLast(attrs, i + 1);
      assert AttributeEnd(attrs[i]) == attrs[i + 1].alignedByteOffset <= AttributeEnd(attrs[i + 1]);
    }
  }

  /** The attributes fed from one input slot, in declaration order. */
  function AttributesOfSlot(attrs: seq<VertexAttribute>, slot: nat): (r: seq<VertexAttribute>)
    ensures forall i :: 0 <= i < |r| ==> r[i].inputSlot == slot && r[i] in attrs
    ensures |r| <= |attrs|
  {
    if attrs == [] then []
    else (if attrs[0].inputSlot == slot then [attrs[0]] else []) + AttributesOfSlot(attrs[1..], slot)
  }

  datatype IndexBufferFormat = UNSIGNED_CHAR | UNSIGNED_SHORT | UNSIGNED_INT

  datatype VertexBuffer = VertexBuffer(handle: ResourceHandle, numberOfBytes: nat)
  datatype IndexBuffer = IndexBuffer(handle: ResourceHandle, numberOfBytes: nat, format: IndexBufferFormat)

  /** What a vertex array object combines: a layout, its vertex buffers (one per input slot) and an optional index buffer. */
  datatype VertexArrayDescription = VertexArrayDescription(
    attributes: seq<VertexAttribute>,
    vertexBuffers: seq<VertexBuffer>,
    indexBuffer: Option<IndexBuffer>)

  datatype Option<T> = None | Some(value: T)

  /** Every attribute reads from a vertex buffer the vertex array actually has. */
  predicate SlotsBound(v: VertexArrayDescription)
  {
    forall i :: 0 <= i < |v.attributes| ==> v.attributes[i].inputSlot < |v.vertexBuffers|
  }

  // ---------------------------------------------------------------------
  // Root signatures and resource groups
  // ---------------------------------------------------------------------

  datatype ResourceType = UNIFORM_BUFFER | TEXTURE_BUFFER | TEXTURE_2D | SAMPLER_STATE

  datatype ShaderVisibility = VERTEX | FRAGMENT

  datatype DescriptorRange = DescriptorRange(
    resourceType: ResourceType,
    baseShaderRegister: nat,
    baseShaderRegisterName: string,
    shaderVisibility: ShaderVisibility)

  /** A descriptor-table root parameter: a list of ranges. */
  datatype RootParameter = DescriptorTable(ranges: seq<DescriptorRange>)

  datatype RootSignature = RootSignature(handle: ResourceHandle, parameters: seq<RootParameter>)

  /** A resource group: resources (null allowed) bound to one root parameter. */
  datatype ResourceGroup = ResourceGroup(
    handle: ResourceHandle,
    rootParameterIndex: nat,
    resources: seq<Option<ResourceHandle>>)

  /** The arity rule of resource-group creation: one resource per declared range. */
  predicate MatchesRootParameter(g: ResourceGroup, s: RootSignature)
  {
    g.rootParameterIndex < |s.parameters| && |g.resources| == |s.parameters[g.rootParameterIndex].ranges|
  }

  // ---------------------------------------------------------------------
  // Command buffer
  // ---------------------------------------------------------------------

  /**
   * One command record. Float payloads (uniform values) are not modelled: a
   * copy record keeps the byte count, a set-uniform record the handle.
   */
  datatype Command =
    | SetGraphicsRootSignature(rootSignature: ResourceHandle)
    | SetGraphicsResourceGroup(rootParameterIndex: nat, resourceGroup: ResourceHandle)
    | SetGraphicsVertexArray(vertexArray: ResourceHandle)
    | CopyUniformBufferData(uniformBuffer: ResourceHandle, numberOfBytes: nat)
    | SetUniform2fv(graphicsProgram: ResourceHandle, uniformHandle: nat)
    | SetUniform3fv(graphicsProgram: ResourceHandle, uniformHandle: nat)
    | SetUniformMatrix4fv(graphicsProgram: ResourceHandle, uniformHandle: nat)
    | DispatchCommandBuffer(nested: CommandBuffer)
    | BeginDebugEvent(name: string)
    | EndDebugEvent
      /** The records a draw batch appends for itself, kept as one opaque entry. */
    | BatchDraw(batchIndex: nat)

  /** Rhi::CommandBuffer: records are only appended, or all cleared at once. */
  class CommandBuffer {
    var records: seq<Command>

    constructor ()
      ensures records == []
    {
      records := [];
    }

    predicate IsEmpty()
      reads this
    {
      records == []
    }

    method Clear()
      modifies this
      ensures records == []
    {
      records := [];
    }

    /** What every per-kind factory function does: append one record. */
    method Append(c: Command)
      modifies this
      ensures records == old(records) + [c]
    {
      records := records + [c];
    }
  }
}
