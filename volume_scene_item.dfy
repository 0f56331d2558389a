/**
 * The volume scene item: a unit cube drawn from one vertex array object that
 * all volume items share. The process-wide pointer to it is created by the
 * first item, every item holds one reference, every renderable of an item
 * holds one more, and the pointer itself holds one; the item whose release
 * leaves only the pointer's reference drops the pointer as well.
 */
module VolumeSceneItem {
  import opened Bytes
  import opened Rhi

  // ---------------------------------------------------------------------
  // Geometry
  // ---------------------------------------------------------------------

  /** A corner of the cube, in half units: a coordinate c stands for c * 0.5. */
  datatype Point = Point(x: int, y: int, z: int)

  /** Object-space positions of the eight corners, each coordinate -0.5 or +0.5. */
  const VERTEX_POSITION: seq<Point> := [
    Point(-1, -1, -1), Point(1, -1, -1), Point(1, 1, -1), Point(-1, 1, -1),
    Point(-1, -1, 1), Point(1, -1, 1), Point(1, 1, 1), Point(-1, 1, 1)
  ]

  const NUMBER_OF_VERTICES: nat := 8

  /** Two triangles per face; faces in the order back, front, left, right, top, bottom. */
  const INDICES: seq<u16> := [
    2, 3, 0, 0, 1, 2,
    7, 6, 5, 5, 4, 7,
    3, 7, 4, 4, 0, 3,
    6, 2, 1, 1, 5, 6,
    3, 2, 6, 6, 7, 3,
    0, 4, 5, 5, 1, 0
  ]

  const NUMBER_OF_INDICES: nat := 36

  /** A face of the cube by its outward normal: the axis (0 = x, 1 = y, 2 = z) and its sign. */
  datatype Face = Face(axis: nat, sign: int)

  const FACES: seq<Face> := [Face(2, -1), Face(2, 1), Face(0, -1), Face(0, 1), Face(1, 1), Face(1, -1)]

  function Coordinate(p: Point, axis: nat): int
  {
    if axis == 0 then p.x else if axis == 1 then p.y else p.z
  }

  predicate OnFace(p: Point, f: Face)
  {
    Coordinate(p, f.axis) == f.sign
  }

  /** Corner `k` of triangle `t` of the index list. */
  function Corner(t: nat, k: nat): Point
    requires t < 12 && k < 3
  {
    VERTEX_POSITION[INDICES[3 * t + k]]
  }

  /** The six indices of the two triangles the table lists for face `f`. */
  function FaceIndices(f: nat): seq<nat>
    requires f < 6
  {
    var j := 6 * f;
    [INDICES[j], INDICES[j + 1], INDICES[j + 2], INDICES[j + 3], INDICES[j + 4], INDICES[j + 5]]
  }

  /** Every index names one of the eight corners, so the draw reads only the vertex buffer. */
  lemma IndicesInRange()
    ensures |VERTEX_POSITION| == NUMBER_OF_VERTICES && |INDICES| == NUMBER_OF_INDICES
    ensures forall i :: 0 <= i < |INDICES| ==> INDICES[i] < NUMBER_OF_VERTICES
  {
  }

  /** Each pair of consecutive triangles lies in the face the table assigns it. */
  lemma TrianglesOnFaces(t: nat, k: nat)
    requires t < 12 && k < 3
    ensures OnFace(Corner(t, k), FACES[t / 2])
  {
    assert t / 2 < 6;
  }

  /** The corner numbering: bit patterns of the cube's vertices as drawn in the table. */
  lemma CornerSigns(v: nat)
    requires v < NUMBER_OF_VERTICES
    ensures VERTEX_POSITION[v].x == (if v == 1 || v == 2 || v == 5 || v == 6 then 1 else -1)
    ensures VERTEX_POSITION[v].y == (if v == 2 || v == 3 || v == 6 || v == 7 then 1 else -1)
    ensures VERTEX_POSITION[v].z == (if v >= 4 then 1 else -1)
  {
  }

  /** The two triangles of a face use all four of its corners and no other. */
  lemma FacesCovered(f: nat, v: nat)
    requires f < 6 && v < NUMBER_OF_VERTICES
    ensures OnFace(VERTEX_POSITION[v], FACES[f]) <==> v in FaceIndices(f)
  {
    FaceTableBackFront();
    FaceTableLeftRight();
    FaceTableTopBottom();
    CornerSigns(v);
    assert f == 0 || f == 1 || f == 2 || f == 3 || f == 4 || f == 5;
  }

  // The face normals and the six indices of each face, read off the tables.

  lemma FaceTableBackFront()
    ensures FACES[0] == Face(2, -1) && FaceIndices(0) == [2, 3, 0, 0, 1, 2]
    ensures FACES[1] == Face(2, 1) && FaceIndices(1) == [7, 6, 5, 5, 4, 7]
  {
  }

  lemma FaceTableLeftRight()
    ensures FACES[2] == Face(0, -1) && FaceIndices(2) == [3, 7, 4, 4, 0, 3]
    ensures FACES[3] == Face(0, 1) && FaceIndices(3) == [6, 2, 1, 1, 5, 6]
  {
  }

  lemma FaceTableTopBottom()
    ensures FACES[4] == Face(1, 1) && FaceIndices(4) == [3, 2, 6, 6, 7, 3]
    ensures FACES[5] == Face(1, -1) && FaceIndices(5) == [0, 4, 5, 5, 1, 0]
  {
  }

  // ---------------------------------------------------------------------
  // Vertex array layout
  // ---------------------------------------------------------------------

  // Handles of the buffers the vertex array is made of.
  const VERTEX_BUFFER: ResourceHandle := 1
  const INDEX_BUFFER: ResourceHandle := 2

  /** Positions from slot 0 per vertex, the draw ID from slot 1 once per instance. */
  const VERTEX_ATTRIBUTES: seq<VertexAttribute> := [
    VertexAttribute(FLOAT_3, "Position", "POSITION", 0, 0, 0, 12, 0),
    VertexAttribute(UINT_1, "drawId", "DRAWID", 0, 1, 0, 4, 1)
  ]

  /** Each slot holds one attribute that fills its stride; only slot 1 advances per instance. */
  lemma VertexLayoutPerSlot()
    ensures AttributesOfSlot(VERTEX_ATTRIBUTES, 0) == [VERTEX_ATTRIBUTES[0]]
    ensures AttributesOfSlot(VERTEX_ATTRIBUTES, 1) == [VERTEX_ATTRIBUTES[1]]
    ensures TilesStride(AttributesOfSlot(VERTEX_ATTRIBUTES, 0)) && VERTEX_ATTRIBUTES[0].strideInBytes == 12
    ensures TilesStride(AttributesOfSlot(VERTEX_ATTRIBUTES, 1)) && VERTEX_ATTRIBUTES[1].strideInBytes == 4
    ensures VERTEX_ATTRIBUTES[0].instancesPerElement == 0 && VERTEX_ATTRIBUTES[1].instancesPerElement == 1
  {
    assert AttributesOfSlot(VERTEX_ATTRIBUTES[2..], 0) == [];
    assert AttributesOfSlot(VERTEX_ATTRIBUTES[1..], 0) == [];
    assert AttributesOfSlot(VERTEX_ATTRIBUTES[2..], 1) == [];
    assert AttributesOfSlot(VERTEX_ATTRIBUTES[1..], 1) == [VERTEX_ATTRIBUTES[1]];
  }

  /**
   * What createVolumeVertexArray builds: the position buffer of eight
   * 12-byte vertices, the draw-ID buffer the mesh resource manager shares,
   * and a 16-bit index buffer of the 36 indices.
   */
  function VolumeVertexArrayDescription(drawIdVertexBuffer: VertexBuffer): (v: VertexArrayDescription)
    ensures SlotsBound(v)
    ensures |v.vertexBuffers| == 2 && v.vertexBuffers[1] == drawIdVertexBuffer
    ensures |v.attributes| == 2 && v.vertexBuffers[0].numberOfBytes == NUMBER_OF_VERTICES * v.attributes[0].strideInBytes
    ensures v.indexBuffer.Some? && v.indexBuffer.value.format == UNSIGNED_SHORT
    ensures v.indexBuffer.value.numberOfBytes == 2 * NUMBER_OF_INDICES
  {
    VertexArrayDescription(
      VERTEX_ATTRIBUTES,
      [VertexBuffer(VERTEX_BUFFER, 96), drawIdVertexBuffer],
      Some(IndexBuffer(INDEX_BUFFER, 72, UNSIGNED_SHORT)))
  }

  // ---------------------------------------------------------------------
  // Reference-counted vertex array and the shared pointer
  // ---------------------------------------------------------------------

  /** An RHI vertex array object: a reference count that starts at zero. */
  class VertexArray {
    const description: VertexArrayDescription
    var referenceCount: nat

    constructor (description: VertexArrayDescription)
      ensures this.description == description && referenceCount == 0
    {
      this.description := description;
      referenceCount := 0;
    }

    method AddReference()
      modifies this
      ensures referenceCount == old(referenceCount) + 1
    {
      referenceCount := referenceCount + 1;
    }

    /** Drops one reference and returns how many are left (zero: the object is destroyed). */
    method ReleaseReference() returns (remaining: nat)
      requires referenceCount > 0
      modifies this
      ensures referenceCount == old(referenceCount) - 1 && remaining == referenceCount
    {
      referenceCount := referenceCount - 1;
      remaining := referenceCount;
    }
  }

  /** createVolumeVertexArray: a new object no one references yet. */
  method CreateVolumeVertexArray(drawIdVertexBuffer: VertexBuffer) returns (created: VertexArray)
    ensures fresh(created) && created.referenceCount == 0
    ensures created.description == VolumeVertexArrayDescription(drawIdVertexBuffer)
  {
    created := new VertexArray(VolumeVertexArrayDescription(drawIdVertexBuffer));
  }

  /**
   * The global smart pointer VolumeVertexArrayPtr (null allowed) together
   * with the draw-ID buffer new vertex arrays are built from. The ghost
   * fields account for every reference: `items` are the live volume items,
   * and `renderableHolders` holds an item once per renderable it owns.
   */
  class SharedVertexArray {
    var vertexArray: VertexArray?
    const drawIdVertexBuffer: VertexBuffer
    ghost var items: set<VolumeSceneItem>
    ghost var renderableHolders: multiset<VolumeSceneItem>

    /** While the pointer is set, its object counts one reference per item, per renderable, and its own. */
    ghost predicate Valid()
      reads this, vertexArray
    {
      && (vertexArray != null ==> vertexArray.referenceCount == 1 + |items| + |renderableHolders|)
      && (vertexArray == null ==> items == {} && renderableHolders == multiset{})
      && (forall i :: i in renderableHolders ==> i in items)
    }

    constructor (drawIdVertexBuffer: VertexBuffer)
      ensures Valid() && vertexArray == null && this.drawIdVertexBuffer == drawIdVertexBuffer
    {
      vertexArray := null;
      this.drawIdVertexBuffer := drawIdVertexBuffer;
      items := {};
      renderableHolders := multiset{};
    }
  }

  /** One draw call of a renderable: indexed, over a range of the index buffer. */
  datatype Renderable = Renderable(
    vertexArray: VertexArray,
    materialResourceId: u32,
    skeletonResourceId: u32,
    drawIndexed: bool,
    startIndexLocation: nat,
    numberOfIndices: nat,
    numberOfInstances: nat)

  /** The renderable onMaterialResourceCreated adds: the whole cube, once. */
  function VolumeRenderable(vertexArray: VertexArray, materialResourceId: u32): (r: Renderable)
    ensures r.vertexArray == vertexArray && r.materialResourceId == materialResourceId
    ensures r.drawIndexed && r.startIndexLocation == 0 && r.numberOfIndices == |INDICES|
    ensures r.numberOfInstances == 1 && !IsValid(r.skeletonResourceId)
  {
    Renderable(vertexArray, materialResourceId, INVALID_U32, true, 0, 36, 1)
  }

  class VolumeSceneItem {
    const shared: SharedVertexArray
    var materialResourceId: u32
    var renderables: seq<Renderable>

    /** A live item: accounted for in the shared pointer's bookkeeping, renderables only with a material. */
    ghost predicate Registered()
      reads this, shared
    {
      && this in shared.items
      && shared.renderableHolders[this] == |renderables|
      && (renderables != [] ==> IsValid(materialResourceId))
    }

    /** Creates the shared vertex array if the pointer is null, then adds this item's reference. */
    constructor (shared: SharedVertexArray)
      requires shared.Valid()
      modifies shared, shared.vertexArray
      ensures shared.Valid() && Registered()
      ensures this.shared == shared && materialResourceId == INVALID_U32 && renderables == []
      ensures shared.items == old(shared.items) + {this}
      ensures shared.renderableHolders == old(shared.renderableHolders)
      ensures old(shared.vertexArray) == null ==>
        && shared.vertexArray != null && fresh(shared.vertexArray)
        && shared.vertexArray.description == VolumeVertexArrayDescription(shared.drawIdVertexBuffer)
        && shared.vertexArray.referenceCount == 2
      ensures old(shared.vertexArray) != null ==>
        && shared.vertexArray == old(shared.vertexArray)
        && shared.vertexArray.referenceCount == old(shared.vertexArray.referenceCount) + 1
    {
      this.shared := shared;
      materialResourceId := INVALID_U32;
      renderables := [];
      new;
      if shared.vertexArray == null {
        var created := CreateVolumeVertexArray(shared.drawIdVertexBuffer);
        // Assigning to the smart pointer adds the pointer's own reference.
        created.AddReference();
        shared.vertexArray := created;
      }
      shared.vertexArray.AddReference();
      shared.items := shared.items + {this};
    }

    /** Adds the cube's renderable, which holds one more reference to the shared vertex array. */
    method OnMaterialResourceCreated(materialResourceId: u32)
      requires shared.Valid() && Registered() && IsValid(materialResourceId)
      modifies this, shared, shared.vertexArray
      ensures shared.Valid() && Registered()
      ensures shared.vertexArray == old(shared.vertexArray) && shared.vertexArray != null
      ensures this.materialResourceId == materialResourceId
      ensures renderables == old(renderables) + [VolumeRenderable(shared.vertexArray, materialResourceId)]
      ensures shared.vertexArray.referenceCount == old(shared.vertexArray.referenceCount) + 1
      ensures shared.items == old(shared.items)
      ensures shared.renderableHolders == old(shared.renderableHolders) + multiset{this}
    {
      this.materialResourceId := materialResourceId;
      shared.vertexArray.AddReference();
      renderables := renderables + [VolumeRenderable(shared.vertexArray, materialResourceId)];
      shared.renderableHolders := shared.renderableHolders + multiset{this};
    }

    /**
     * The destructor: with a material, clears the renderables (dropping their
     * references), then releases the item's own reference; when that leaves
     * one reference, the pointer's, the pointer is set to null, which drops it.
     */
    method Destroy()
      requires shared.Valid() && Registered()
      modifies this, shared, shared.vertexArray
      ensures shared.Valid()
      ensures shared.items == old(shared.items) - {this}
      ensures shared.renderableHolders == old(shared.renderableHolders)[this := 0]
      ensures IsValid(materialResourceId) ==> renderables == []
      ensures !IsValid(materialResourceId) ==> renderables == old(renderables)
      ensures materialResourceId == old(materialResourceId)
      ensures old(shared.vertexArray) != null
      ensures shared.vertexArray == null <==> shared.items == {} && shared.renderableHolders == multiset{}
      ensures shared.vertexArray == null ==> old(shared.vertexArray).referenceCount == 0
      ensures shared.vertexArray != null ==>
        && shared.vertexArray == old(shared.vertexArray)
        && shared.vertexArray.referenceCount == old(shared.vertexArray.referenceCount) - 1 - old(|renderables|)
    {
      var owned := |renderables|;
      if IsValid(materialResourceId) {
        ReleaseRenderables();
      }
      assert renderables == [] && shared.vertexArray.referenceCount == 1 + |shared.items| + |shared.renderableHolders|;
      shared.items := shared.items - {this};
      if shared.vertexArray != null {
        var remaining := shared.vertexArray.ReleaseReference();
        if remaining == 1 {
          // Setting the smart pointer to null drops the pointer's own reference.
          var last := shared.vertexArray.ReleaseReference();
          shared.vertexArray := null;
        }
      }
    }

    /** Clearing the renderable list: each renderable releases its reference. */
    method ReleaseRenderables()
      requires shared.Valid() && Registered() && shared.vertexArray != null
      modifies this, shared, shared.vertexArray
      ensures shared.Valid() && shared.vertexArray == old(shared.vertexArray)
      ensures renderables == [] && materialResourceId == old(materialResourceId)
      ensures shared.items == old(shared.items)
      ensures shared.renderableHolders == old(shared.renderableHolders)[this := 0]
      ensures shared.vertexArray.referenceCount == old(shared.vertexArray.referenceCount) - old(|renderables|)
    {
      var owned := |renderables|;
      assert |shared.renderableHolders[this := 0]| == |shared.renderableHolders| - owned by {
        assert shared.renderableHolders == shared.renderableHolders[this := 0] + multiset{}[this := owned];
      }
      shared.vertexArray.referenceCount := shared.vertexArray.referenceCount - owned;
      renderables := [];
      shared.renderableHolders := shared.renderableHolders[this := 0];
    }
  }
}
