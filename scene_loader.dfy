/**
 * The scene resource loader: after the LZ4 stage has produced the raw scene
 * bytes, a scene header is skipped and a three-level structure is read
 * through a moving cursor: a nodes header holding the node count, then per
 * node a node record (an opaque transform and an item count) followed by its
 * items, then per item an item header (type id and payload size) followed by
 * the payload.
 *
 * Whether the scene resource accepts a node or an item is decided by code
 * outside this model; it is a parameter here (`nodeOk`, `itemOk`). A refused
 * node skips none of its items and a refused item skips none of its payload:
 * the cursor then simply stays where the record header ended.
 *
 * The specification functions `ParseItem` … `ParseScene` read the same bytes
 * the loader reads; the loader's methods are proved against them.
 */
module SceneLoader {
  import opened Bytes
  import opened Rhi

  /** Sizes of the packed records of the scene format. */
  const SCENE_HEADER_BYTES: nat := 4
  const NODES_BYTES: nat := 4
  const TRANSFORM_BYTES: nat := 40
  const NODE_BYTES: nat := TRANSFORM_BYTES + 4
  const ITEM_HEADER_BYTES: nat := 8

  /**
   * A scene item attached to a node. `payload` holds the bytes handed to the
   * item's deserialization, or None when it was never called (zero bytes).
   */
  datatype SceneItem = SceneItem(typeId: u32, payload: Option<seq<u8>>)

  datatype SceneNode = SceneNode(transform: seq<u8>, items: seq<SceneItem>)

  datatype ParseError = Truncated | NoNodes

  /** A value read from the bytes and the cursor position after it, or why reading failed. */
  datatype Parsed<T> = Ok(value: T, next: nat) | Err(error: ParseError)

  ghost predicate AllNodesCreated(nodeOk: seq<u8> -> bool)
  {
    forall t: seq<u8> :: nodeOk(t)
  }

  ghost predicate AllItemsCreated(itemOk: u32 -> bool)
  {
    forall t: u32 :: itemOk(t)
  }

  function PayloadBytes(item: SceneItem): nat
  {
    if item.payload.Some? then |item.payload.value| else 0
  }

  /** Payload bytes of a list of items. */
  function ItemsPayloadBytes(items: seq<SceneItem>): nat
  {
    if items == [] then 0 else ItemsPayloadBytes(items[..|items| - 1]) + PayloadBytes(items[|items| - 1])
  }

  /** Bytes a node occupies when it and all its items are created. */
  function NodeBytes(node: SceneNode): nat
  {
    NODE_BYTES + |node.items| * ITEM_HEADER_BYTES + ItemsPayloadBytes(node.items)
  }

  function NodeListBytes(nodes: seq<SceneNode>): nat
  {
    if nodes == [] then 0 else NodeListBytes(nodes[..|nodes| - 1]) + NodeBytes(nodes[|nodes| - 1])
  }

  // ---------------------------------------------------------------------
  // The format, read as a specification
  // ---------------------------------------------------------------------

  /**
   * One item at `pos`: the header, then the payload only if the item was
   * created and the payload size is not zero.
   */
  function ParseItem(b: seq<u8>, pos: nat, itemOk: u32 -> bool): (r: Parsed<Option<SceneItem>>)
    ensures r.Ok? ==> pos + ITEM_HEADER_BYTES <= r.next <= |b|
    ensures r.Ok? ==> (r.value.Some? <==> itemOk(DecodeU32(b, pos)))
    ensures r.Ok? && r.value.None? ==> r.next == pos + ITEM_HEADER_BYTES
    ensures r.Ok? && r.value.Some? ==>
      && r.value.value.typeId == DecodeU32(b, pos)
      && (r.value.value.payload.Some? <==> DecodeU32(b, pos + 4) != 0)
      && r.next == pos + ITEM_HEADER_BYTES + PayloadBytes(r.value.value)
      && (r.value.value.payload.Some? ==> r.value.value.payload.value == b[pos + ITEM_HEADER_BYTES..r.next])
  {
    if pos + ITEM_HEADER_BYTES > |b| then Err(Truncated)
    else
      var typeId := DecodeU32(b, pos);
      var numberOfBytes := DecodeU32(b, pos + 4);
      var start := pos + ITEM_HEADER_BYTES;
      if !itemOk(typeId) then Ok(None, start)
      else if numberOfBytes == 0 then Ok(Some(SceneItem(typeId, None)), start)
      else if start + numberOfBytes > |b| then Err(Truncated)
      else Ok(Some(SceneItem(typeId, Some(b[start..start + numberOfBytes]))), start + numberOfBytes)
  }

  function ItemList(o: Option<SceneItem>): seq<SceneItem>
  {
    if o.Some? then [o.value] else []
  }

  /**
   * `count` items in order. Every item consumes its header; only created
   * items appear in the result and only their payloads are consumed.
   */
  function ParseItems(b: seq<u8>, pos: nat, count: nat, itemOk: u32 -> bool): (r: Parsed<seq<SceneItem>>)
    ensures r.Ok? ==> pos <= r.next && (count > 0 ==> r.next <= |b|)
    ensures r.Ok? ==> |r.value| <= count
    ensures r.Ok? && AllItemsCreated(itemOk) ==> |r.value| == count
    ensures r.Ok? ==> forall i :: 0 <= i < |r.value| ==> itemOk(r.value[i].typeId)
    decreases count
  {
    if count == 0 then Ok([], pos)
    else
      match ParseItems(b, pos, count - 1, itemOk)
      case Err(e) => Err(e)
      case Ok(items, p) =>
        match ParseItem(b, p, itemOk)
        case Err(e) => Err(e)
        case Ok(item, q) =>
          var all := items + ItemList(item);
          assert item.None? ==> all == items;
          assert item.Some? ==> all[..|all| - 1] == items && all[|all| - 1] == item.value;
          Ok(all, q)
  }

  /**
   * One node at `pos`: the node record, then its items only if the node was
   * created.
   */
  function ParseNode(b: seq<u8>, pos: nat, nodeOk: seq<u8> -> bool, itemOk: u32 -> bool): (r: Parsed<Option<SceneNode>>)
    ensures r.Ok? ==> pos + NODE_BYTES <= r.next <= |b|
    ensures r.Ok? ==> (r.value.Some? <==> nodeOk(b[pos..pos + TRANSFORM_BYTES]))
    ensures r.Ok? && r.value.None? ==> r.next == pos + NODE_BYTES
    ensures r.Ok? && r.value.Some? ==>
      && r.value.value.transform == b[pos..pos + TRANSFORM_BYTES]
      && |r.value.value.items| <= DecodeU32(b, pos + TRANSFORM_BYTES)
    ensures r.Ok? && r.value.Some? && AllItemsCreated(itemOk) ==>
      |r.value.value.items| == DecodeU32(b, pos + TRANSFORM_BYTES)
  {
    if pos + NODE_BYTES > |b| then Err(Truncated)
    else
      var transform := b[pos..pos + TRANSFORM_BYTES];
      var numberOfItems := DecodeU32(b, pos + TRANSFORM_BYTES);
      if !nodeOk(transform) then Ok(None, pos + NODE_BYTES)
      else
        match ParseItems(b, pos + NODE_BYTES, numberOfItems, itemOk)
        case Err(e) => Err(e)
        case Ok(items, q) => Ok(Some(SceneNode(transform, items)), q)
  }

  function NodeList(o: Option<SceneNode>): seq<SceneNode>
  {
    if o.Some? then [o.value] else []
  }

  /** `count` nodes in order; only created nodes appear in the result. */
  function ParseNodeList(b: seq<u8>, pos: nat, count: nat, nodeOk: seq<u8> -> bool, itemOk: u32 -> bool): (r: Parsed<seq<SceneNode>>)
    ensures r.Ok? ==> pos <= r.next && (count > 0 ==> r.next <= |b|)
    ensures r.Ok? ==> |r.value| <= count
    ensures r.Ok? && AllNodesCreated(nodeOk) ==> |r.value| == count
    decreases count
  {
    if count == 0 then Ok([], pos)
    else
      match ParseNodeList(b, pos, count - 1, nodeOk, itemOk)
      case Err(e) => Err(e)
      case Ok(nodes, p) =>
        match ParseNode(b, p, nodeOk, itemOk)
        case Err(e) => Err(e)
        case Ok(node, q) =>
          var all := nodes + NodeList(node);
          assert node.None? ==> all == nodes;
          assert node.Some? ==> all[..|all| - 1] == nodes && all[|all| - 1] == node.value;
          Ok(all, q)
  }

  /** The nodes header, which must announce at least one node, then the nodes. */
  function ParseNodes(b: seq<u8>, pos: nat, nodeOk: seq<u8> -> bool, itemOk: u32 -> bool): (r: Parsed<seq<SceneNode>>)
    ensures r.Ok? ==> pos + NODES_BYTES <= |b| && DecodeU32(b, pos) > 0
    ensures r.Ok? ==> |r.value| <= DecodeU32(b, pos)
    ensures r.Ok? && AllNodesCreated(nodeOk) ==> |r.value| == DecodeU32(b, pos)
    ensures r.Ok? ==> pos + NODES_BYTES <= r.next <= |b|
    ensures pos + NODES_BYTES <= |b| && DecodeU32(b, pos) == 0 ==> r == Err(NoNodes)
  {
    if pos + NODES_BYTES > |b| then Err(Truncated)
    else
      var numberOfNodes := DecodeU32(b, pos);
      if numberOfNodes == 0 then Err(NoNodes)
      else ParseNodeList(b, pos + NODES_BYTES, numberOfNodes, nodeOk, itemOk)
  }

  /** The scene header (currently unused), then the nodes. */
  function ParseScene(b: seq<u8>, pos: nat, nodeOk: seq<u8> -> bool, itemOk: u32 -> bool): (r: Parsed<seq<SceneNode>>)
    ensures r.Ok? ==> pos + SCENE_HEADER_BYTES + NODES_BYTES <= r.next <= |b|
  {
    if pos + SCENE_HEADER_BYTES > |b| then Err(Truncated)
    else ParseNodes(b, pos + SCENE_HEADER_BYTES, nodeOk, itemOk)
  }

  /**
   * Every item consumes its header; only the payloads of created items are
   * consumed.
   */
  lemma {:induction false} ParseItemsConsumes(b: seq<u8>, pos: nat, count: nat, itemOk: u32 -> bool)
    requires ParseItems(b, pos, count, itemOk).Ok?
    ensures var r := ParseItems(b, pos, count, itemOk);
      r.next == pos + count * ITEM_HEADER_BYTES + ItemsPayloadBytes(r.value)
    decreases count
  {
    if count > 0 {
      ParseItemsConsumes(b, pos, count - 1, itemOk);
      var items := ParseItems(b, pos, count - 1, itemOk).value;
      var all := ParseItems(b, pos, count, itemOk).value;
      var item := ParseItem(b, ParseItems(b, pos, count - 1, itemOk).next, itemOk).value;
      assert all == items + ItemList(item);
      if item.Some? {
        assert all[..|all| - 1] == items;
      } else {
        assert all == items;
      }
    }
  }

  lemma ParseNodeConsumes(b: seq<u8>, pos: nat, nodeOk: seq<u8> -> bool, itemOk: u32 -> bool)
    requires ParseNode(b, pos, nodeOk, itemOk).Ok? && AllItemsCreated(itemOk)
    ensures var r := ParseNode(b, pos, nodeOk, itemOk);
      r.next == pos + (if r.value.Some? then NodeBytes(r.value.value) else NODE_BYTES)
  {
    var r := ParseNode(b, pos, nodeOk, itemOk);
    if r.value.Some? {
      ParseItemsConsumes(b, pos + NODE_BYTES, DecodeU32(b, pos + TRANSFORM_BYTES), itemOk);
    }
  }

  lemma {:induction false} ParseNodeListConsumes(b: seq<u8>, pos: nat, count: nat, nodeOk: seq<u8> -> bool, itemOk: u32 -> bool)
    requires ParseNodeList(b, pos, count, nodeOk, itemOk).Ok?
    requires AllNodesCreated(nodeOk) && AllItemsCreated(itemOk)
    ensures var r := ParseNodeList(b, pos, count, nodeOk, itemOk);
      r.next == pos + NodeListBytes(r.value)
    decreases count
  {
    if count > 0 {
      ParseNodeListConsumes(b, pos, count - 1, nodeOk, itemOk);
      var prev := ParseNodeList(b, pos, count - 1, nodeOk, itemOk);
      var all := ParseNodeList(b, pos, count, nodeOk, itemOk).value;
      ParseNodeConsumes(b, prev.next, nodeOk, itemOk);
      var node := ParseNode(b, prev.next, nodeOk, itemOk).value;
      assert all == prev.value + [node.value];
      assert all[..|all| - 1] == prev.value;
    }
  }

  /**
   * When every node and item is created, reading stops after the nodes
   * header, every node record, every item header and every payload.
   */
  lemma ParseNodesConsumes(b: seq<u8>, pos: nat, nodeOk: seq<u8> -> bool, itemOk: u32 -> bool)
    requires ParseNodes(b, pos, nodeOk, itemOk).Ok?
    requires AllNodesCreated(nodeOk) && AllItemsCreated(itemOk)
    ensures var r := ParseNodes(b, pos, nodeOk, itemOk);
      r.next == pos + NODES_BYTES + NodeListBytes(r.value)
  {
    ParseNodeListConsumes(b, pos + NODES_BYTES, DecodeU32(b, pos), nodeOk, itemOk);
  }

  /** A prefix of a readable run of items is readable. */
  lemma {:induction false} ParseItemsPrefix(b: seq<u8>, pos: nat, count: nat, i: nat, itemOk: u32 -> bool)
    requires i <= count && ParseItems(b, pos, count, itemOk).Ok?
    ensures ParseItems(b, pos, i, itemOk).Ok?
    decreases count
  {
    if i < count {
      ParseItemsPrefix(b, pos, count - 1, i, itemOk);
    }
  }

  lemma {:induction false} ParseNodeListPrefix(b: seq<u8>, pos: nat, count: nat, i: nat, nodeOk: seq<u8> -> bool, itemOk: u32 -> bool)
    requires i <= count && ParseNodeList(b, pos, count, nodeOk, itemOk).Ok?
    ensures ParseNodeList(b, pos, i, nodeOk, itemOk).Ok?
    decreases count
  {
    if i < count {
      ParseNodeListPrefix(b, pos, count - 1, i, nodeOk, itemOk);
    }
  }

  /** Reading one more item extends the items read so far by that item, if created. */
  lemma ParseItemsNext(b: seq<u8>, pos: nat, i: nat, itemOk: u32 -> bool)
    requires ParseItems(b, pos, i + 1, itemOk).Ok?
    ensures var r := ParseItems(b, pos, i, itemOk);
      && r.Ok? && ParseItem(b, r.next, itemOk).Ok?
      && ParseItems(b, pos, i + 1, itemOk)
         == Ok(r.value + ItemList(ParseItem(b, r.next, itemOk).value), ParseItem(b, r.next, itemOk).next)
  {
  }

  lemma ParseNodeListNext(b: seq<u8>, pos: nat, i: nat, nodeOk: seq<u8> -> bool, itemOk: u32 -> bool)
    requires ParseNodeList(b, pos, i + 1, nodeOk, itemOk).Ok?
    ensures var r := ParseNodeList(b, pos, i, nodeOk, itemOk);
      && r.Ok? && ParseNode(b, r.next, nodeOk, itemOk).Ok?
      && ParseNodeList(b, pos, i + 1, nodeOk, itemOk)
         == Ok(r.value + NodeList(ParseNode(b, r.next, nodeOk, itemOk).value), ParseNode(b, r.next, nodeOk, itemOk).next)
  {
  }

  // ---------------------------------------------------------------------
  // The loader's state
  // ---------------------------------------------------------------------

  /** The decompressed scene bytes and the read cursor. */
  class MemoryFile {
    const data: seq<u8>
    var position: nat

    constructor (data: seq<u8>)
      ensures this.data == data && position == 0
    {
      this.data := data;
      position := 0;
    }

    /** Copies the next `numberOfBytes` bytes out and advances past them. */
    method Read(numberOfBytes: nat) returns (bytes: seq<u8>)
      requires position + numberOfBytes <= |data|
      modifies this
      ensures bytes == data[old(position)..old(position) + numberOfBytes]
      ensures position == old(position) + numberOfBytes
    {
      bytes := data[position..position + numberOfBytes];
      position := position + numberOfBytes;
    }
  }

  /** The node attached last gets one more item. */
  function AttachItem(nodes: seq<SceneNode>, item: SceneItem): (r: seq<SceneNode>)
    requires |nodes| > 0
    ensures |r| == |nodes| && r[..|r| - 1] == nodes[..|nodes| - 1]
    ensures r[|r| - 1].transform == nodes[|nodes| - 1].transform
    ensures r[|r| - 1].items == nodes[|nodes| - 1].items + [item]
  {
    var last := nodes[|nodes| - 1];
    nodes[..|nodes| - 1] + [SceneNode(last.transform, last.items + [item])]
  }

  /** The item attached last receives its payload. */
  function WithLastPayload(nodes: seq<SceneNode>, data: seq<u8>): (r: seq<SceneNode>)
    requires |nodes| > 0 && |nodes[|nodes| - 1].items| > 0
  {
    var last := nodes[|nodes| - 1];
    var item := last.items[|last.items| - 1];
    nodes[..|nodes| - 1] + [SceneNode(last.transform, last.items[..|last.items| - 1] + [SceneItem(item.typeId, Some(data))])]
  }

  /** Creating an item and then handing it its payload attaches the item with that payload. */
  lemma AttachThenPayload(owner: seq<SceneNode>, typeId: u32, data: seq<u8>)
    requires |owner| > 0
    ensures WithLastPayload(AttachItem(owner, SceneItem(typeId, None)), data) == AttachItem(owner, SceneItem(typeId, Some(data)))
  {
    var last := owner[|owner| - 1];
    assert (last.items + [SceneItem(typeId, None)])[..|last.items|] == last.items;
  }

  /** The scene resource as the loader fills it: its nodes, each with its items. */
  class SceneResource {
    var nodes: seq<SceneNode>

    constructor ()
      ensures nodes == []
    {
      nodes := [];
    }

    /** Creates a node for the transform, if the scene accepts it. */
    method CreateSceneNode(transform: seq<u8>, nodeOk: seq<u8> -> bool) returns (created: bool)
      modifies this
      ensures created == nodeOk(transform)
      ensures nodes == old(nodes) + NodeList(if created then Some(SceneNode(transform, [])) else None)
    {
      created := nodeOk(transform);
      if created {
        nodes := nodes + [SceneNode(transform, [])];
      }
    }

    /** Creates an item of the type on the last node, if the scene accepts it. */
    method CreateSceneItem(typeId: u32, itemOk: u32 -> bool) returns (created: bool)
      requires |nodes| > 0
      modifies this
      ensures created == itemOk(typeId)
      ensures nodes == if created then AttachItem(old(nodes), SceneItem(typeId, None)) else old(nodes)
    {
      created := itemOk(typeId);
      if created {
        nodes := AttachItem(nodes, SceneItem(typeId, None));
      }
    }

    /** Hands the payload to the item created last. */
    method DeserializeItem(data: seq<u8>)
      requires |nodes| > 0 && |nodes[|nodes| - 1].items| > 0
      modifies this
      ensures nodes == WithLastPayload(old(nodes), data)
    {
      nodes := WithLastPayload(nodes, data);
    }
  }

  /** Reads one item into the node attached last. */
  method ItemDeserialization(file: MemoryFile, scene: SceneResource, itemOk: u32 -> bool)
    requires ParseItem(file.data, file.position, itemOk).Ok?
    requires |scene.nodes| > 0
    modifies file, scene
    ensures var r := ParseItem(file.data, old(file.position), itemOk);
      && file.position == r.next
      && scene.nodes == (if r.value.Some? then AttachItem(old(scene.nodes), r.value.value) else old(scene.nodes))
  {
    ghost var start := file.position;
    ghost var owner := scene.nodes;
    var itemHeader := file.Read(ITEM_HEADER_BYTES);
    var typeId := DecodeU32(itemHeader, 0);
    var numberOfBytes := DecodeU32(itemHeader, 4);
    DecodeU32Slice(file.data, start, start + ITEM_HEADER_BYTES, start);
    DecodeU32Slice(file.data, start, start + ITEM_HEADER_BYTES, start + 4);
    var created := scene.CreateSceneItem(typeId, itemOk);
    if created && numberOfBytes != 0 {
      var data := file.Read(numberOfBytes);
      scene.DeserializeItem(data);
      AttachThenPayload(owner, typeId, data);
    }
  }

  lemma AttachToLast(before: seq<SceneNode>, transform: seq<u8>, items: seq<SceneItem>, o: Option<SceneItem>)
    ensures (if o.Some? then AttachItem(before + [SceneNode(transform, items)], o.value) else before + [SceneNode(transform, items)])
      == before + [SceneNode(transform, items + ItemList(o))]
  {
    assert (before + [SceneNode(transform, items)])[..|before|] == before;
    assert o.None? ==> items + ItemList(o) == items;
  }

  /** Reads one node; its items only if the node was created. */
  method NodeDeserialization(file: MemoryFile, scene: SceneResource, nodeOk: seq<u8> -> bool, itemOk: u32 -> bool)
    requires ParseNode(file.data, file.position, nodeOk, itemOk).Ok?
    modifies file, scene
    ensures var r := ParseNode(file.data, old(file.position), nodeOk, itemOk);
      && file.position == r.next
      && scene.nodes == old(scene.nodes) + NodeList(r.value)
  {
    ghost var b := file.data;
    ghost var start := file.position;
    ghost var before := scene.nodes;
    var node := file.Read(NODE_BYTES);
    var transform := node[..TRANSFORM_BYTES];
    var numberOfItems := DecodeU32(node, TRANSFORM_BYTES);
    DecodeU32Slice(b, start, start + NODE_BYTES, start + TRANSFORM_BYTES);
    assert transform == b[start..start + TRANSFORM_BYTES];
    var created := scene.CreateSceneNode(transform, nodeOk);
    if created {
      ghost var itemsStart := start + NODE_BYTES;
      assert ParseItems(b, itemsStart, numberOfItems, itemOk).Ok?;
      var i: nat := 0;
      while i < numberOfItems
        invariant i <= numberOfItems
        invariant ParseItems(b, itemsStart, i, itemOk).Ok?
        invariant file.position == ParseItems(b, itemsStart, i, itemOk).next
        invariant scene.nodes == before + [SceneNode(transform, ParseItems(b, itemsStart, i, itemOk).value)]
      {
        ParseItemsPrefix(b, itemsStart, numberOfItems, i + 1, itemOk);
        ParseItemsNext(b, itemsStart, i, itemOk);
        ghost var items := ParseItems(b, itemsStart, i, itemOk).value;
        ghost var item := ParseItem(b, file.position, itemOk).value;
        ItemDeserialization(file, scene, itemOk);
        AttachToLast(before, transform, items, item);
        i := i + 1;
      }
    }
  }

  /** Reads the nodes header and then exactly that many nodes. */
  method NodesDeserialization(file: MemoryFile, scene: SceneResource, nodeOk: seq<u8> -> bool, itemOk: u32 -> bool)
    requires ParseNodes(file.data, file.position, nodeOk, itemOk).Ok?
    modifies file, scene
    ensures var r := ParseNodes(file.data, old(file.position), nodeOk, itemOk);
      && file.position == r.next
      && scene.nodes == old(scene.nodes) + r.value
  {
    ghost var b := file.data;
    ghost var start := file.position;
    ghost var before := scene.nodes;
    var nodes := file.Read(NODES_BYTES);
    var numberOfNodes := DecodeU32(nodes, 0);
    DecodeU32Slice(b, start, start + NODES_BYTES, start);

    // Sanity check
    assert numberOfNodes > 0;

    ghost var nodesStart := start + NODES_BYTES;
    ghost var parsed := ParseNodeList(b, nodesStart, 0, nodeOk, itemOk);
    var i: nat := 0;
    while i < numberOfNodes
      invariant i <= numberOfNodes
      invariant parsed == ParseNodeList(b, nodesStart, i, nodeOk, itemOk) && parsed.Ok?
      invariant file.position == parsed.next && scene.nodes == before + parsed.value
    {
      ParseNodeListPrefix(b, nodesStart, numberOfNodes, i + 1, nodeOk, itemOk);
      ParseNodeListNext(b, nodesStart, i, nodeOk, itemOk);
      NodeDeserialization(file, scene, nodeOk, itemOk);
      parsed := ParseNodeList(b, nodesStart, i + 1, nodeOk, itemOk);
      i := i + 1;
    }
  }

  /**
   * The loader of one scene. Scene items may create RHI resources, so the
   * nodes are read on the loader's worker phase only when the RHI supports
   * native multithreading, and otherwise on the dispatch phase.
   */
  class SceneResourceLoader {
    const capabilities: Capabilities
    const memoryFile: MemoryFile
    const sceneResource: SceneResource
    const nodeOk: seq<u8> -> bool
    const itemOk: u32 -> bool

    constructor (capabilities: Capabilities, memoryFile: MemoryFile, sceneResource: SceneResource,
                 nodeOk: seq<u8> -> bool, itemOk: u32 -> bool)
      ensures this.capabilities == capabilities && this.memoryFile == memoryFile
      ensures this.sceneResource == sceneResource
      ensures this.nodeOk == nodeOk && this.itemOk == itemOk
    {
      this.capabilities := capabilities;
      this.memoryFile := memoryFile;
      this.sceneResource := sceneResource;
      this.nodeOk := nodeOk;
      this.itemOk := itemOk;
    }

    /** The scene that the bytes from the cursor on describe. */
    function PendingScene(): Parsed<seq<SceneNode>>
      reads this, memoryFile
    {
      ParseScene(memoryFile.data, memoryFile.position, nodeOk, itemOk)
    }

    /** Skips the scene header, then reads the nodes if the RHI is natively multithreaded. */
    method OnProcessing()
      requires PendingScene().Ok?
      modifies memoryFile, sceneResource
      ensures var r := ParseScene(memoryFile.data, old(memoryFile.position), nodeOk, itemOk);
        if capabilities.nativeMultithreading then
          memoryFile.position == r.next && sceneResource.nodes == old(sceneResource.nodes) + r.value
        else
          && memoryFile.position == old(memoryFile.position) + SCENE_HEADER_BYTES
          && sceneResource.nodes == old(sceneResource.nodes)
    {
      // Read in the scene header (currently unused)
      var sceneHeader := memoryFile.Read(SCENE_HEADER_BYTES);

      if capabilities.nativeMultithreading {
        NodesDeserialization(memoryFile, sceneResource, nodeOk, itemOk);
      }
    }

    /** Reads the nodes if the worker phase did not; the resource is then fully loaded. */
    method OnDispatch() returns (fullyLoaded: bool)
      requires !capabilities.nativeMultithreading ==>
        ParseNodes(memoryFile.data, memoryFile.position, nodeOk, itemOk).Ok?
      modifies memoryFile, sceneResource
      ensures fullyLoaded
      ensures var r := ParseNodes(memoryFile.data, old(memoryFile.position), nodeOk, itemOk);
        if !capabilities.nativeMultithreading then
          memoryFile.position == r.next && sceneResource.nodes == old(sceneResource.nodes) + r.value
        else
          memoryFile.position == old(memoryFile.position) && sceneResource.nodes == old(sceneResource.nodes)
    {
      if !capabilities.nativeMultithreading {
        NodesDeserialization(memoryFile, sceneResource, nodeOk, itemOk);
      }
      fullyLoaded := true;
    }

    /**
     * The two phases in the order the resource streamer runs them: whatever
     * the capability, the scene's nodes are read exactly once.
     */
    method ProcessThenDispatch() returns (fullyLoaded: bool)
      requires PendingScene().Ok?
      modifies memoryFile, sceneResource
      ensures fullyLoaded
      ensures var r := ParseScene(memoryFile.data, old(memoryFile.position), nodeOk, itemOk);
        memoryFile.position == r.next && sceneResource.nodes == old(sceneResource.nodes) + r.value
    {
      OnProcessing();
      fullyLoaded := OnDispatch();
    }
  }
}
