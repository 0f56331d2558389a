/**
 * The instanced-cubes renderer that draws with "draw instanced": it clamps
 * its texture count against its own limit and the RHI's, derives the number
 * of instances one batch may draw from the texture-buffer limit, splits the
 * cubes into solid and transparent batches, records the static draw sequence
 * once into a reusable command buffer and, every frame, records the uniform
 * updates followed by a nested dispatch of that reusable buffer.
 */
module CubeRenderer {
  import opened Bytes
  import opened Rhi

  /** Texture limit of this renderer (one colour row per texture). */
  const MAXIMUM_NUMBER_OF_TEXTURES: nat := 8

  const TEXTURE_WIDTH: nat := 128
  const TEXTURE_HEIGHT: nat := 128
  const TEXELS_PER_TEXTURE: nat := 16384
  /** Bytes of one R8G8B8A8 texture slice: 128 * 128 * 4. */
  const NUMBER_OF_BYTES: nat := 65536

  // Handles of the RHI objects the renderer creates.
  const ROOT_SIGNATURE: ResourceHandle := 1
  const TEXTURE_2D_ARRAY: ResourceHandle := 2
  const SAMPLER_STATE: ResourceHandle := 3
  const SAMPLER_STATE_GROUP: ResourceHandle := 4
  const VERTEX_BUFFER: ResourceHandle := 5
  const INDEX_BUFFER: ResourceHandle := 6
  const VERTEX_ARRAY: ResourceHandle := 7
  const UNIFORM_BUFFER_STATIC_VS: ResourceHandle := 8
  const UNIFORM_BUFFER_DYNAMIC_VS: ResourceHandle := 9
  const UNIFORM_BUFFER_DYNAMIC_FS: ResourceHandle := 10
  const RESOURCE_GROUP_VS: ResourceHandle := 11
  const RESOURCE_GROUP_FS: ResourceHandle := 12
  const GRAPHICS_PROGRAM: ResourceHandle := 13

  // ---------------------------------------------------------------------
  // Constant layouts
  // ---------------------------------------------------------------------

  /** Interleaved position, texture coordinate and normal: eight floats per vertex. */
  const VERTEX_ATTRIBUTES: seq<VertexAttribute> := [
    VertexAttribute(FLOAT_3, "Position", "POSITION", 0, 0, 0, 32, 0),
    VertexAttribute(FLOAT_2, "TexCoord", "TEXCOORD", 0, 0, 12, 32, 0),
    VertexAttribute(FLOAT_3, "Normal", "NORMAL", 0, 0, 20, 32, 0)
  ]

  lemma VertexLayoutTilesStride()
    ensures TilesStride(VERTEX_ATTRIBUTES)
    ensures VERTEX_ATTRIBUTES[0].strideInBytes == 32
    ensures forall i :: 0 <= i < |VERTEX_ATTRIBUTES| ==> FitsStride(VERTEX_ATTRIBUTES[i])
  {
    TilesStrideFits(VERTEX_ATTRIBUTES);
  }

  /** Six faces with four vertices each. */
  const NUMBER_OF_VERTICES: nat := 24

  /** Two counter-clockwise triangles per face. */
  const INDICES: seq<u16> := [
    1, 0, 2, 3, 2, 0,
    6, 5, 4, 4, 7, 6,
    9, 8, 10, 11, 10, 8,
    13, 12, 14, 15, 14, 12,
    17, 16, 18, 19, 18, 16,
    21, 20, 22, 23, 22, 20
  ]

  /** Every index names one of the 24 vertices, and each face only uses its own four. */
  lemma IndicesInRange()
    ensures |INDICES| == 36
    ensures forall i :: 0 <= i < |INDICES| ==> INDICES[i] < NUMBER_OF_VERTICES
    ensures forall i :: 0 <= i < |INDICES| ==> INDICES[i] / 4 == i / 6
  {
  }

  const CUBE_VERTEX_ARRAY: VertexArrayDescription :=
    VertexArrayDescription(
      VERTEX_ATTRIBUTES,
      [VertexBuffer(VERTEX_BUFFER, NUMBER_OF_VERTICES * 32)],
      Some(IndexBuffer(INDEX_BUFFER, |INDICES| * 2, UNSIGNED_SHORT)))

  /** Four descriptor tables holding 2, 2, 1 and 1 ranges. */
  const CUBE_ROOT_SIGNATURE: RootSignature :=
    RootSignature(ROOT_SIGNATURE, [
      DescriptorTable([
        DescriptorRange(UNIFORM_BUFFER, 0, "UniformBlockStaticVs", VERTEX),
        DescriptorRange(UNIFORM_BUFFER, 1, "UniformBlockDynamicVs", VERTEX)]),
      DescriptorTable([
        DescriptorRange(TEXTURE_2D, 0, "AlbedoMap", FRAGMENT),
        DescriptorRange(UNIFORM_BUFFER, 0, "UniformBlockDynamicFs", FRAGMENT)]),
      DescriptorTable([
        DescriptorRange(TEXTURE_BUFFER, 0, "PerInstanceTextureBufferVs", VERTEX)]),
      DescriptorTable([
        DescriptorRange(ResourceType.SAMPLER_STATE, 0, "", FRAGMENT)])
    ])

  function ResourceGroupVs(staticVs: Option<ResourceHandle>, dynamicVs: Option<ResourceHandle>): ResourceGroup
  {
    ResourceGroup(RESOURCE_GROUP_VS, 0, [staticVs, dynamicVs])
  }

  function ResourceGroupFs(dynamicFs: Option<ResourceHandle>): ResourceGroup
  {
    ResourceGroup(RESOURCE_GROUP_FS, 1, [Some(TEXTURE_2D_ARRAY), dynamicFs])
  }

  /** The sampler group is created against root parameter 2. */
  const SAMPLER_GROUP: ResourceGroup := ResourceGroup(SAMPLER_STATE_GROUP, 2, [Some(SAMPLER_STATE)])

  /** Each resource group the renderer creates supplies one resource per declared range. */
  lemma ResourceGroupsMatchRootSignature(staticVs: Option<ResourceHandle>, dynamicVs: Option<ResourceHandle>, dynamicFs: Option<ResourceHandle>)
    ensures |CUBE_ROOT_SIGNATURE.parameters| == 4
    ensures MatchesRootParameter(ResourceGroupVs(staticVs, dynamicVs), CUBE_ROOT_SIGNATURE)
    ensures MatchesRootParameter(ResourceGroupFs(dynamicFs), CUBE_ROOT_SIGNATURE)
    ensures MatchesRootParameter(SAMPLER_GROUP, CUBE_ROOT_SIGNATURE)
  {
  }

  // ---------------------------------------------------------------------
  // Limits
  // ---------------------------------------------------------------------

  /** The texture count kept after construction: the smallest of the three limits. */
  function ClampedNumberOfTextures(requested: u32, caps: Capabilities): (n: nat)
    ensures n <= requested && n <= MAXIMUM_NUMBER_OF_TEXTURES && n <= caps.maximumNumberOf2DTextureArraySlices
    ensures n == requested || n == MAXIMUM_NUMBER_OF_TEXTURES || n == caps.maximumNumberOf2DTextureArraySlices
  {
    var n := if requested > MAXIMUM_NUMBER_OF_TEXTURES then MAXIMUM_NUMBER_OF_TEXTURES else requested;
    if n > caps.maximumNumberOf2DTextureArraySlices then caps.maximumNumberOf2DTextureArraySlices else n
  }

  /** One instance needs two texels of the per-instance texture buffer. */
  function MaximumNumberOfInstancesPerBatch(caps: Capabilities): (m: nat)
    ensures 2 * m <= caps.maximumTextureBufferSize < 2 * m + 2
  {
    caps.maximumTextureBufferSize / 2
  }

  // ---------------------------------------------------------------------
  // Texture content
  // ---------------------------------------------------------------------

  /**
   * The byte at offset `k` of the texture upload buffer. `texel(j, i, c)` is
   * channel `c` of texel `i` of slice `j`, the random value scaled by the
   * slice's colour; alpha is always opaque.
   */
  function TextureByte(texel: (nat, nat, nat) -> u8, k: nat): u8
  {
    if k % 4 == 3 then 255 else texel(k / 4 / TEXELS_PER_TEXTURE, (k / 4) % TEXELS_PER_TEXTURE, k % 4)
  }

  lemma TextureByteAt(texel: (nat, nat, nat) -> u8, j: nat, i: nat, c: nat)
    requires i < TEXELS_PER_TEXTURE && c < 4
    ensures TextureByte(texel, j * NUMBER_OF_BYTES + i * 4 + c) == if c == 3 then 255 else texel(j, i, c)
  {
    var k := j * NUMBER_OF_BYTES + i * 4 + c;
    var t := j * TEXELS_PER_TEXTURE + i;
    assert k == t * 4 + c;
    assert k / 4 == t && k % 4 == c;
    assert t / TEXELS_PER_TEXTURE == j && t % TEXELS_PER_TEXTURE == i;
  }

  /** The fill loop: four bytes per texel through a moving write position. */
  method FillTextureContent(data: array<u8>, numberOfTextures: nat, texel: (nat, nat, nat) -> u8)
    requires data.Length == NUMBER_OF_BYTES * numberOfTextures
    modifies data
    ensures forall k :: 0 <= k < data.Length ==> data[k] == TextureByte(texel, k)
  {
    var current := 0;
    for j := 0 to numberOfTextures
      invariant current == j * NUMBER_OF_BYTES
      invariant forall k :: 0 <= k < current ==> data[k] == TextureByte(texel, k)
    {
      for i := 0 to TEXELS_PER_TEXTURE
        invariant current == j * NUMBER_OF_BYTES + i * 4
        invariant forall k :: 0 <= k < current ==> data[k] == TextureByte(texel, k)
      {
        TextureByteAt(texel, j, i, 0);
        TextureByteAt(texel, j, i, 1);
        TextureByteAt(texel, j, i, 2);
        TextureByteAt(texel, j, i, 3);
        data[current] := texel(j, i, 0);
        current := current + 1;
        data[current] := texel(j, i, 1);
        current := current + 1;
        data[current] := texel(j, i, 2);
        current := current + 1;
        data[current] := 255;
        current := current + 1;
      }
    }
  }

  /** The upload buffer holds whole slices, and its alpha channel is 255 everywhere. */
  lemma TextureContentShape(texel: (nat, nat, nat) -> u8, numberOfTextures: nat, k: nat)
    requires k < NUMBER_OF_BYTES * numberOfTextures
    ensures k / NUMBER_OF_BYTES < numberOfTextures
    ensures k % 4 == 3 ==> TextureByte(texel, k) == 255
    ensures k % 4 != 3 ==> TextureByte(texel, k) == texel(k / NUMBER_OF_BYTES, (k % NUMBER_OF_BYTES) / 4, k % 4)
  {
    var j := k / NUMBER_OF_BYTES;
    var r := k % NUMBER_OF_BYTES;
    assert k == j * NUMBER_OF_BYTES + r;
    TextureByteAt(texel, j, r / 4, r % 4);
  }

  // ---------------------------------------------------------------------
  // Batches
  // ---------------------------------------------------------------------

  /** One draw-instanced batch, as BatchDrawInstanced::initialize receives it. */
  datatype Batch = Batch(numberOfCubes: nat, transparent: bool, numberOfTextures: nat, sceneRadius: nat)

  function Sum(s: seq<nat>): nat
  {
    if s == [] then 0 else s[0] + Sum(s[1..])
  }

  /**
   * The number of batches for `t` cubes with at most `m` per batch; the
   * renderer computes it as the floating-point ceiling of t / m.
   */
  function CeilDiv(t: nat, m: nat): nat
    requires m > 0
    decreases t
  {
    if t == 0 then 0 else if t <= m then 1 else 1 + CeilDiv(t - m, m)
  }

  /** CeilDiv is the ceiling: the least k with k * m >= t. */
  lemma {:induction false} CeilDivIsCeiling(t: nat, m: nat)
    requires m > 0
    ensures CeilDiv(t, m) * m >= t
    ensures t > 0 ==> (CeilDiv(t, m) - 1) * m < t
    decreases t
  {
    if t > m {
      var k := CeilDiv(t - m, m);
      CeilDivIsCeiling(t - m, m);
      assert CeilDiv(t, m) * m == k * m + m;
      assert (CeilDiv(t, m) - 1) * m == k * m;
      assert (k - 1) * m == k * m - m;
    }
  }

  /**
   * The sizes of the batches the loop creates for `remaining` cubes: each
   * takes the limit while more than the limit remains, then the rest.
   */
  function BatchSizes(remaining: nat, max: nat): (r: seq<nat>)
    requires max > 0
    ensures forall i :: 0 <= i < |r| ==> 1 <= r[i] <= max
    ensures Sum(r) == remaining
    ensures |r| == CeilDiv(remaining, max)
    decreases remaining
  {
    if remaining == 0 then []
    else if remaining > max then
      var rest := BatchSizes(remaining - max, max);
      assert ([max] + rest)[1..] == rest;
      [max] + rest
    else
      [remaining]
  }

  /** A third of the cubes (rounded down) are transparent, the rest solid. */
  function NumberOfTransparentCubes(numberOfCubes: nat): nat { numberOfCubes / 3 }

  function NumberOfSolidCubes(numberOfCubes: nat): nat { numberOfCubes - numberOfCubes / 3 }

  /** The batches created for the given sizes, all with one transparency flag. */
  function TaggedBatches(sizes: seq<nat>, transparent: bool, numberOfTextures: nat, sceneRadius: nat): (r: seq<Batch>)
    ensures |r| == |sizes|
    ensures forall i :: 0 <= i < |r| ==> r[i] == Batch(sizes[i], transparent, numberOfTextures, sceneRadius)
  {
    seq(|sizes|, i requires 0 <= i < |sizes| => Batch(sizes[i], transparent, numberOfTextures, sceneRadius))
  }

  /** All solid batches, then all transparent ones. */
  function PlanBatches(numberOfCubes: nat, max: nat, numberOfTextures: nat, sceneRadius: nat): seq<Batch>
    requires max > 0
  {
    TaggedBatches(BatchSizes(NumberOfSolidCubes(numberOfCubes), max), false, numberOfTextures, sceneRadius)
    + TaggedBatches(BatchSizes(NumberOfTransparentCubes(numberOfCubes), max), true, numberOfTextures, sceneRadius)
  }

  /** The cubes still to be placed: the loop's signed counter, read as zero once it has dropped to zero or below. */
  function Remaining(x: int): nat { if x > 0 then x else 0 }

  /** One step of the batch loop: the next batch and the cubes after it. */
  lemma BatchSizesStep(remaining: int, max: nat)
    requires max > 0 && remaining > 0
    ensures BatchSizes(remaining, max)
      == [if remaining > max then max else remaining] + BatchSizes(Remaining(remaining - max), max)
  {
  }

  /**
   * One of the two batch loops: while batches remain to be created, give the
   * next one the limit if more than the limit remains, else the rest.
   */
  method InitializeBatches(numberOfCubes: nat, max: nat, transparent: bool, numberOfTextures: nat, sceneRadius: nat)
    returns (created: seq<Batch>)
    requires max > 0
    ensures created == TaggedBatches(BatchSizes(numberOfCubes, max), transparent, numberOfTextures, sceneRadius)
  {
    var numberOfBatches := CeilDiv(numberOfCubes, max);
    ghost var sizes := BatchSizes(numberOfCubes, max);
    created := [];
    var remaining: int := numberOfCubes;
    var b := 0;
    while b < numberOfBatches
      invariant 0 <= b <= numberOfBatches == |sizes|
      invariant |created| == b
      invariant forall k :: 0 <= k < b ==> created[k] == Batch(sizes[k], transparent, numberOfTextures, sceneRadius)
      invariant sizes[b..] == BatchSizes(Remaining(remaining), max)
    {
      var current := if remaining > max then max else remaining;
      BatchSizesStep(remaining, max);
      assert sizes[b] == current && sizes[b + 1..] == BatchSizes(Remaining(remaining - max), max) by {
        assert sizes[b + 1..] == sizes[b..][1..];
      }
      created := created + [Batch(current, transparent, numberOfTextures, sceneRadius)];
      remaining := remaining - max;
      b := b + 1;
    }
  }

  function SumOfCubes(batches: seq<Batch>): nat
  {
    if batches == [] then 0 else batches[0].numberOfCubes + SumOfCubes(batches[1..])
  }

  lemma {:induction false} SumOfCubesSizes(batches: seq<Batch>, sizes: seq<nat>)
    requires |batches| == |sizes|
    requires forall i :: 0 <= i < |sizes| ==> batches[i].numberOfCubes == sizes[i]
    ensures SumOfCubes(batches) == Sum(sizes)
  {
    if batches != [] {
      SumOfCubesSizes(batches[1..], sizes[1..]);
    }
  }

  /**
   * What setNumberOfCubes creates: ceil(solid / max) + ceil(transparent / max)
   * batches of 1 to max cubes each; the solid ones first, holding all solid
   * cubes, then the transparent ones, holding all transparent cubes.
   */
  lemma PlanBatchesShape(numberOfCubes: nat, max: nat, numberOfTextures: nat, sceneRadius: nat)
    requires max > 0
    ensures var b := PlanBatches(numberOfCubes, max, numberOfTextures, sceneRadius);
      var k := CeilDiv(NumberOfSolidCubes(numberOfCubes), max);
      && |b| == k + CeilDiv(NumberOfTransparentCubes(numberOfCubes), max)
      && (forall i :: 0 <= i < |b| ==> 1 <= b[i].numberOfCubes <= max)
      && (forall i :: 0 <= i < |b| ==> (b[i].transparent <==> i >= k))
      && SumOfCubes(b[..k]) == NumberOfSolidCubes(numberOfCubes)
      && SumOfCubes(b[k..]) == NumberOfTransparentCubes(numberOfCubes)
  {
    var b := PlanBatches(numberOfCubes, max, numberOfTextures, sceneRadius);
    var solid := BatchSizes(NumberOfSolidCubes(numberOfCubes), max);
    var transparent := BatchSizes(NumberOfTransparentCubes(numberOfCubes), max);
    var k := |solid|;
    assert b[..k] == TaggedBatches(solid, false, numberOfTextures, sceneRadius);
    assert b[k..] == TaggedBatches(transparent, true, numberOfTextures, sceneRadius);
    SumOfCubesSizes(b[..k], solid);
    SumOfCubesSizes(b[k..], transparent);
  }

  /** Solid batches are never drawn after transparent ones. */
  lemma SolidBeforeTransparent(numberOfCubes: nat, max: nat, numberOfTextures: nat, sceneRadius: nat, i: nat, j: nat)
    requires max > 0
    requires i <= j < |PlanBatches(numberOfCubes, max, numberOfTextures, sceneRadius)|
    ensures var b := PlanBatches(numberOfCubes, max, numberOfTextures, sceneRadius);
      b[i].transparent ==> b[j].transparent
  {
    PlanBatchesShape(numberOfCubes, max, numberOfTextures, sceneRadius);
  }

  // ---------------------------------------------------------------------
  // Command records
  // ---------------------------------------------------------------------

  function BatchDraws(numberOfBatches: nat): (r: seq<Command>)
    ensures |r| == numberOfBatches
    ensures forall i :: 0 <= i < numberOfBatches ==> r[i] == BatchDraw(i)
  {
    seq(numberOfBatches, i requires 0 <= i < numberOfBatches => BatchDraw(i))
  }

  /** The state setup of the reusable buffer, in the order it is recorded. */
  const REUSABLE_SETUP: seq<Command> := [
    SetGraphicsRootSignature(ROOT_SIGNATURE),
    SetGraphicsResourceGroup(0, RESOURCE_GROUP_VS),
    SetGraphicsResourceGroup(1, RESOURCE_GROUP_FS),
    SetGraphicsResourceGroup(3, SAMPLER_STATE_GROUP),
    SetGraphicsVertexArray(VERTEX_ARRAY)
  ]

  /** Debug builds wrap the recording into a scoped debug event named after the function. */
  function ReusableRecords(rhiDebug: bool, numberOfBatches: nat): seq<Command>
  {
    (if rhiDebug then [BeginDebugEvent("fillReusableCommandBuffer")] else [])
    + REUSABLE_SETUP + BatchDraws(numberOfBatches)
    + (if rhiDebug then [EndDebugEvent] else [])
  }

  /**
   * The dispatcher's state rule for one buffer: a draw may only follow a bound
   * root signature, the resource groups and a bound vertex array.
   */
  predicate DrawReady(records: seq<Command>)
  {
    forall i :: 0 <= i < |records| && records[i].BatchDraw? ==>
      (exists r :: 0 <= r < i && records[r].SetGraphicsRootSignature?) &&
      (exists v :: 0 <= v < i && records[v].SetGraphicsVertexArray?) &&
      (exists g :: 0 <= g < i && records[g].SetGraphicsResourceGroup?)
  }

  /**
   * The reusable buffer: the setup comes first (root signature before the
   * groups at 0, 1 and 3, then the vertex array), then one entry per batch in
   * batch order, so every draw finds its state bound.
   */
  lemma ReusableRecordsOrder(rhiDebug: bool, numberOfBatches: nat)
    ensures var r := ReusableRecords(rhiDebug, numberOfBatches);
      var o := if rhiDebug then 1 else 0;
      && |r| == 5 + numberOfBatches + 2 * o
      && r[o..o + 5] == REUSABLE_SETUP
      && (forall i :: 0 <= i < numberOfBatches ==> r[o + 5 + i] == BatchDraw(i))
      && DrawReady(r)
  {
    var r := ReusableRecords(rhiDebug, numberOfBatches);
    var o := if rhiDebug then 1 else 0;
    assert r[o].SetGraphicsRootSignature? && r[o + 1].SetGraphicsResourceGroup? && r[o + 4].SetGraphicsVertexArray?;
    forall i | 0 <= i < |r| && r[i].BatchDraw?
      ensures i >= o + 5
    {
    }
  }

  /**
   * The per-frame records: the dynamic uniforms go through their uniform
   * buffers when those exist (8 bytes for the vertex shader, then 12 for the
   * fragment shader) and through two individual uniforms otherwise; the MVP
   * matrix is set as a uniform when there is no static uniform buffer; the
   * reusable buffer is always dispatched last.
   */
  function FrameRecords(staticVs: Option<ResourceHandle>, dynamicVs: Option<ResourceHandle>, dynamicFs: Option<ResourceHandle>,
                        getUniformHandle: string -> nat, reusable: CommandBuffer): (r: seq<Command>)
    ensures 2 <= |r| <= 4
    ensures r[|r| - 1] == DispatchCommandBuffer(reusable)
    ensures (exists i :: 0 <= i < |r| && r[i].CopyUniformBufferData?) <==> dynamicVs.Some?
    ensures (exists i :: 0 <= i < |r| && r[i].SetUniformMatrix4fv?) <==> staticVs.None?
  {
    var uniforms :=
      if dynamicVs.Some? then
        [CopyUniformBufferData(dynamicVs.value, 8)]
        + (if dynamicFs.Some? then [CopyUniformBufferData(dynamicFs.value, 12)] else [])
      else
        [SetUniform2fv(GRAPHICS_PROGRAM, getUniformHandle("TimerAndGlobalScale")),
         SetUniform3fv(GRAPHICS_PROGRAM, getUniformHandle("LightPosition"))];
    var mvp := if staticVs.None? then [SetUniformMatrix4fv(GRAPHICS_PROGRAM, getUniformHandle("MVP"))] else [];
    var r := uniforms + mvp + [DispatchCommandBuffer(reusable)];
    assert r[0] == uniforms[0];
    assert staticVs.None? ==> r[|uniforms|] == mvp[0];
    assert forall i :: 0 <= i < |r| ==> r[i] in uniforms || r[i] in mvp || r[i] == DispatchCommandBuffer(reusable);
    r
  }

  /** The uniform buffers that exist exactly when the RHI supports uniform buffers. */
  function UniformBufferIf(caps: Capabilities, handle: ResourceHandle): Option<ResourceHandle>
  {
    if caps.maximumUniformBufferSize > 0 then Some(handle) else None
  }

  /**
   * With the buffers a constructed renderer has, a frame is one of exactly two
   * record sequences, chosen by the uniform-buffer capability.
   */
  lemma FrameRecordsByCapability(caps: Capabilities, getUniformHandle: string -> nat, reusable: CommandBuffer)
    ensures var r := FrameRecords(UniformBufferIf(caps, UNIFORM_BUFFER_STATIC_VS), UniformBufferIf(caps, UNIFORM_BUFFER_DYNAMIC_VS),
                                  UniformBufferIf(caps, UNIFORM_BUFFER_DYNAMIC_FS), getUniformHandle, reusable);
      if caps.maximumUniformBufferSize > 0 then
        r == [CopyUniformBufferData(UNIFORM_BUFFER_DYNAMIC_VS, 8), CopyUniformBufferData(UNIFORM_BUFFER_DYNAMIC_FS, 12),
              DispatchCommandBuffer(reusable)]
      else
        r == [SetUniform2fv(GRAPHICS_PROGRAM, getUniformHandle("TimerAndGlobalScale")),
              SetUniform3fv(GRAPHICS_PROGRAM, getUniformHandle("LightPosition")),
              SetUniformMatrix4fv(GRAPHICS_PROGRAM, getUniformHandle("MVP")),
              DispatchCommandBuffer(reusable)]
  {
  }

  // ---------------------------------------------------------------------
  // The renderer object
  // ---------------------------------------------------------------------

  /** The 2D texture array created from the upload buffer. */
  datatype TextureArray = TextureArray(width: nat, height: nat, numberOfSlices: nat, data: seq<u8>)

  class CubeRendererDrawInstanced {
    const capabilities: Capabilities
    const rhiDebug: bool
    const sceneRadius: u32
    var numberOfTextures: nat
    var maximumNumberOfInstancesPerBatch: nat
    const texture2DArray: TextureArray
    const rootSignature: RootSignature
    const vertexArray: VertexArrayDescription
    const uniformBufferStaticVs: Option<ResourceHandle>
    const uniformBufferDynamicVs: Option<ResourceHandle>
    const uniformBufferDynamicFs: Option<ResourceHandle>
    const resourceGroupVs: ResourceGroup
    const resourceGroupFs: ResourceGroup
    const samplerStateGroup: ResourceGroup
    var batches: seq<Batch>
    /** The reusable command buffer, filled once per setNumberOfCubes. */
    const commandBuffer: CommandBuffer

    constructor (caps: Capabilities, requestedNumberOfTextures: u32, sceneRadius: u32, rhiDebug: bool,
                 texel: (nat, nat, nat) -> u8)
      ensures capabilities == caps && this.sceneRadius == sceneRadius && this.rhiDebug == rhiDebug
      ensures numberOfTextures == ClampedNumberOfTextures(requestedNumberOfTextures, caps)
      ensures maximumNumberOfInstancesPerBatch == MaximumNumberOfInstancesPerBatch(caps)
      ensures texture2DArray.width == TEXTURE_WIDTH && texture2DArray.height == TEXTURE_HEIGHT
      ensures texture2DArray.numberOfSlices == numberOfTextures
      ensures |texture2DArray.data| == NUMBER_OF_BYTES * numberOfTextures
      ensures forall k :: 0 <= k < |texture2DArray.data| ==> texture2DArray.data[k] == TextureByte(texel, k)
      ensures rootSignature == CUBE_ROOT_SIGNATURE && vertexArray == CUBE_VERTEX_ARRAY
      ensures uniformBufferStaticVs == UniformBufferIf(caps, UNIFORM_BUFFER_STATIC_VS)
      ensures uniformBufferDynamicVs == UniformBufferIf(caps, UNIFORM_BUFFER_DYNAMIC_VS)
      ensures uniformBufferDynamicFs == UniformBufferIf(caps, UNIFORM_BUFFER_DYNAMIC_FS)
      ensures resourceGroupVs == ResourceGroupVs(uniformBufferStaticVs, uniformBufferDynamicVs)
      ensures resourceGroupFs == ResourceGroupFs(uniformBufferDynamicFs)
      ensures samplerStateGroup == SAMPLER_GROUP
      ensures batches == [] && fresh(commandBuffer) && commandBuffer.records == []
    {
      capabilities := caps;
      this.sceneRadius := sceneRadius;
      this.rhiDebug := rhiDebug;

      // Limit of this implementation, then limit of the RHI
      var n: nat := requestedNumberOfTextures;
      if n > MAXIMUM_NUMBER_OF_TEXTURES {
        n := MAXIMUM_NUMBER_OF_TEXTURES;
      }
      if n > caps.maximumNumberOf2DTextureArraySlices {
        n := caps.maximumNumberOf2DTextureArraySlices;
      }
      numberOfTextures := n;
      maximumNumberOfInstancesPerBatch := caps.maximumTextureBufferSize / 2;

      rootSignature := CUBE_ROOT_SIGNATURE;

      var data := new u8[NUMBER_OF_BYTES * n];
      FillTextureContent(data, n, texel);
      texture2DArray := TextureArray(TEXTURE_WIDTH, TEXTURE_HEIGHT, n, data[..]);

      samplerStateGroup := SAMPLER_GROUP;
      vertexArray := CUBE_VERTEX_ARRAY;

      var staticVs := UniformBufferIf(caps, UNIFORM_BUFFER_STATIC_VS);
      var dynamicVs := UniformBufferIf(caps, UNIFORM_BUFFER_DYNAMIC_VS);
      var dynamicFs := UniformBufferIf(caps, UNIFORM_BUFFER_DYNAMIC_FS);
      uniformBufferStaticVs := staticVs;
      uniformBufferDynamicVs := dynamicVs;
      uniformBufferDynamicFs := dynamicFs;
      resourceGroupVs := ResourceGroupVs(staticVs, dynamicVs);
      resourceGroupFs := ResourceGroupFs(dynamicFs);

      batches := [];
      commandBuffer := new CommandBuffer();
    }

    /**
     * Discards the previous batches, creates the solid and then the
     * transparent batches, and re-records the reusable command buffer.
     */
    method SetNumberOfCubes(numberOfCubes: u32)
      requires maximumNumberOfInstancesPerBatch > 0
      modifies this, commandBuffer
      ensures numberOfTextures == old(numberOfTextures)
      ensures maximumNumberOfInstancesPerBatch == old(maximumNumberOfInstancesPerBatch)
      ensures batches == PlanBatches(numberOfCubes, maximumNumberOfInstancesPerBatch, numberOfTextures, sceneRadius)
      ensures commandBuffer.records == ReusableRecords(rhiDebug, |batches|)
    {
      // Destroy previous batches
      batches := [];

      // A third of the cubes is rendered with alpha blending
      var numberOfTransparentCubes := numberOfCubes / 3;
      var numberOfSolidCubes := numberOfCubes - numberOfTransparentCubes;

      var solid := InitializeBatches(numberOfSolidCubes, maximumNumberOfInstancesPerBatch, false, numberOfTextures, sceneRadius);
      var transparent := InitializeBatches(numberOfTransparentCubes, maximumNumberOfInstancesPerBatch, true, numberOfTextures, sceneRadius);
      batches := solid + transparent;

      commandBuffer.Clear();
      FillReusableCommandBuffer();
    }

    /** Records the static draw sequence into the (empty) reusable buffer. */
    method FillReusableCommandBuffer()
      requires commandBuffer.records == []
      modifies commandBuffer
      ensures commandBuffer.records == ReusableRecords(rhiDebug, |batches|)
    {
      if rhiDebug {
        commandBuffer.Append(BeginDebugEvent("fillReusableCommandBuffer"));
      }
      commandBuffer.Append(SetGraphicsRootSignature(ROOT_SIGNATURE));
      commandBuffer.Append(SetGraphicsResourceGroup(0, RESOURCE_GROUP_VS));
      commandBuffer.Append(SetGraphicsResourceGroup(1, RESOURCE_GROUP_FS));
      commandBuffer.Append(SetGraphicsResourceGroup(3, SAMPLER_STATE_GROUP));
      commandBuffer.Append(SetGraphicsVertexArray(VERTEX_ARRAY));
      ghost var setup := commandBuffer.records;
      assert setup == (if rhiDebug then [BeginDebugEvent("fillReusableCommandBuffer")] else []) + REUSABLE_SETUP;
      for i := 0 to |batches|
        invariant commandBuffer.records == setup + BatchDraws(i)
      {
        commandBuffer.Append(BatchDraw(i));
      }
      if rhiDebug {
        commandBuffer.Append(EndDebugEvent);
      }
    }

    /** Records one frame into `target`, ending with the nested dispatch of the reusable buffer. */
    method FillCommandBuffer(getUniformHandle: string -> nat, target: CommandBuffer)
      modifies target
      ensures target.records == old(target.records)
        + FrameRecords(uniformBufferStaticVs, uniformBufferDynamicVs, uniformBufferDynamicFs, getUniformHandle, commandBuffer)
    {
      if uniformBufferDynamicVs.Some? {
        target.Append(CopyUniformBufferData(uniformBufferDynamicVs.value, 8));
        if uniformBufferDynamicFs.Some? {
          target.Append(CopyUniformBufferData(uniformBufferDynamicFs.value, 12));
        }
      } else {
        target.Append(SetUniform2fv(GRAPHICS_PROGRAM, getUniformHandle("TimerAndGlobalScale")));
        target.Append(SetUniform3fv(GRAPHICS_PROGRAM, getUniformHandle("LightPosition")));
      }
      if uniformBufferStaticVs.None? {
        target.Append(SetUniformMatrix4fv(GRAPHICS_PROGRAM, getUniformHandle("MVP")));
      }
      target.Append(DispatchCommandBuffer(commandBuffer));
    }
  }
}
