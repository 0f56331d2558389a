/**
 * The bookkeeping every renderer resource carries as an element of a packed
 * element manager: an optional owning resource manager, the resource, asset
 * and loader-type identifiers, a loading state, a 256-character debug-name
 * buffer, and the listeners notified about it, kept sorted and free of
 * duplicates.
 */
module Resource {
  import opened Bytes
  import opened Rhi

  /** The five loading states a resource can be in. */
  datatype LoadingState = UNLOADED | LOADING | LOADED | UNLOADING | FAILED

  const LOADING_STATES: seq<LoadingState> := [UNLOADED, LOADING, LOADED, UNLOADING, FAILED]

  /** The enumeration has exactly five distinct members. */
  lemma LoadingStatesEnumerated(s: LoadingState)
    ensures s in LOADING_STATES
    ensures |LOADING_STATES| == 5
    ensures forall i, j :: 0 <= i < j < |LOADING_STATES| ==> LOADING_STATES[i] != LOADING_STATES[j]
  {
  }

  /** Identity of a resource manager (the address of the owner). */
  type ResourceManagerHandle = nat

  /** Identity of a resource listener; the listener list is ordered by it. */
  type ListenerHandle = nat

  const NUL: char := '\0'

  /** Capacity of the debug-name buffer, terminating zero included. */
  const DEBUG_NAME_CAPACITY: nat := 256

  /** A C string: characters up to, not including, a terminating zero. */
  predicate IsCString(s: seq<char>)
  {
    forall i :: 0 <= i < |s| ==> s[i] != NUL
  }

  // ---------------------------------------------------------------------
  // Debug name
  // ---------------------------------------------------------------------

  /**
   * The buffer after copying `name` with at most 256 characters (padding the
   * rest with zeros) and forcing a zero into the last character.
   */
  function StoredDebugName(name: seq<char>): (r: seq<char>)
    ensures |r| == DEBUG_NAME_CAPACITY && r[DEBUG_NAME_CAPACITY - 1] == NUL
    ensures forall i :: 0 <= i < |r| ==> r[i] == (if i < |name| && i < DEBUG_NAME_CAPACITY - 1 then name[i] else NUL)
  {
    seq(DEBUG_NAME_CAPACITY, i requires 0 <= i < DEBUG_NAME_CAPACITY =>
      if i < |name| && i < DEBUG_NAME_CAPACITY - 1 then name[i] else NUL)
  }

  /** The C string a zero-terminated buffer holds. */
  function CStringOf(buffer: seq<char>): (r: seq<char>)
    ensures IsCString(r) && |r| <= |buffer|
    ensures r == buffer[..|r|]
    ensures |r| < |buffer| ==> buffer[|r|] == NUL
  {
    if buffer == [] || buffer[0] == NUL then [] else [buffer[0]] + CStringOf(buffer[1..])
  }

  /** A stored name reads back as the name, cut to 255 characters. */
  lemma {:induction false} DebugNameReadBack(name: seq<char>)
    requires IsCString(name)
    ensures CStringOf(StoredDebugName(name)) == if |name| < DEBUG_NAME_CAPACITY then name else name[..DEBUG_NAME_CAPACITY - 1]
  {
    var buffer := StoredDebugName(name);
    var n := if |name| < DEBUG_NAME_CAPACITY then |name| else DEBUG_NAME_CAPACITY - 1;
    assert buffer[n] == NUL;
    assert forall i :: 0 <= i < n ==> buffer[i] == name[i] != NUL;
    CStringStopsAtFirstZero(buffer, n);
  }

  lemma {:induction false} CStringStopsAtFirstZero(buffer: seq<char>, n: nat)
    requires n < |buffer| && buffer[n] == NUL
    requires forall i :: 0 <= i < n ==> buffer[i] != NUL
    ensures CStringOf(buffer) == buffer[..n]
    decreases n
  {
    if n > 0 {
      CStringStopsAtFirstZero(buffer[1..], n - 1);
      assert buffer[..n] == [buffer[0]] + buffer[1..][..n - 1];
    }
  }

  // ---------------------------------------------------------------------
  // Listener list
  // ---------------------------------------------------------------------

  predicate StrictlySorted(s: seq<ListenerHandle>)
  {
    forall i, j :: 0 <= i < j < |s| ==> s[i] < s[j]
  }

  /** Connecting: insert in order, unless already present. */
  function InsertListener(s: seq<ListenerHandle>, x: ListenerHandle): (r: seq<ListenerHandle>)
    requires StrictlySorted(s)
    ensures StrictlySorted(r)
    ensures forall y :: y in r <==> y in s || y == x
    ensures x in s ==> r == s
  {
    if s == [] then [x]
    else if x < s[0] then
      assert forall y :: y in s ==> x < y;
      SortedCons(x, s);
      [x] + s
    else if x == s[0] then s
    else
      var rest := InsertListener(s[1..], x);
      assert s == [s[0]] + s[1..];
      assert x in s <==> x in s[1..];
      assert forall y :: y in rest ==> s[0] < y;
      SortedCons(s[0], rest);
      [s[0]] + rest
  }

  /** A sorted list with a smaller head in front is still sorted. */
  lemma SortedCons(x: ListenerHandle, s: seq<ListenerHandle>)
    requires StrictlySorted(s) && forall y :: y in s ==> x < y
    ensures StrictlySorted([x] + s)
  {
    var r := [x] + s;
    forall i, j | 0 <= i < j < |r|
      ensures r[i] < r[j]
    {
      assert r[j] == s[j - 1] && s[j - 1] in s;
      if i > 0 {
        assert r[i] == s[i - 1];
      }
    }
  }

  /** Disconnecting: drop the listener if present. */
  function RemoveListener(s: seq<ListenerHandle>, x: ListenerHandle): (r: seq<ListenerHandle>)
    requires StrictlySorted(s)
    ensures StrictlySorted(r)
    ensures forall y :: y in r <==> y in s && y != x
    ensures x !in s ==> r == s
  {
    if s == [] then []
    else if x == s[0] then
      assert x !in s[1..];
      s[1..]
    else
      var rest := RemoveListener(s[1..], x);
      assert s == [s[0]] + s[1..];
      assert forall y :: y in rest ==> s[0] < y;
      SortedCons(s[0], rest);
      [s[0]] + rest
  }

  /** Connecting twice registers once. */
  lemma ConnectIdempotent(s: seq<ListenerHandle>, x: ListenerHandle)
    requires StrictlySorted(s)
    ensures InsertListener(InsertListener(s, x), x) == InsertListener(s, x)
  {
  }

  /** Disconnecting a listener that was just connected restores the list. */
  lemma {:induction false} DisconnectUndoesConnect(s: seq<ListenerHandle>, x: ListenerHandle)
    requires StrictlySorted(s) && x !in s
    ensures RemoveListener(InsertListener(s, x), x) == s
  {
    if s != [] && x > s[0] {
      DisconnectUndoesConnect(s[1..], x);
    }
  }

  // ---------------------------------------------------------------------
  // The resource
  // ---------------------------------------------------------------------

  class IResource {
    const debugName: array<char>
    var resourceManager: Option<ResourceManagerHandle>
    var resourceId: u32
    var assetId: u32
    var resourceLoaderTypeId: u32
    var loadingState: LoadingState
    var sortedResourceListeners: seq<ListenerHandle>

    /** The debug-name buffer keeps its size and its final zero; listeners stay sorted. */
    ghost predicate Valid()
      reads this, debugName
    {
      && debugName.Length == DEBUG_NAME_CAPACITY
      && debugName[DEBUG_NAME_CAPACITY - 1] == NUL
      && StrictlySorted(sortedResourceListeners)
    }

    /** The state a newly constructed (or deinitialized) element is in. */
    ghost predicate IsFresh()
      reads this, debugName
    {
      && debugName.Length == DEBUG_NAME_CAPACITY
      && debugName[0] == NUL
      && resourceManager == None
      && !IsValid(resourceId)
      && !IsValid(assetId)
      && !IsValid(resourceLoaderTypeId)
      && loadingState == UNLOADED
      && sortedResourceListeners == []
    }

    /** What the destructor checks: like fresh, except that a failed load may remain. */
    ghost predicate MayBeDestroyed()
      reads this, debugName
    {
      && debugName.Length == DEBUG_NAME_CAPACITY
      && debugName[0] == NUL
      && resourceManager == None
      && !IsValid(resourceId)
      && !IsValid(assetId)
      && !IsValid(resourceLoaderTypeId)
      && (loadingState == UNLOADED || loadingState == FAILED)
      && sortedResourceListeners == []
    }

    constructor ()
      ensures Valid() && IsFresh() && fresh(debugName)
      ensures forall i :: 0 <= i < debugName.Length ==> debugName[i] == NUL
    {
      debugName := new char[DEBUG_NAME_CAPACITY](_ => NUL);
      resourceManager := None;
      resourceId := INVALID_U32;
      assetId := INVALID_U32;
      resourceLoaderTypeId := INVALID_U32;
      loadingState := UNLOADED;
      sortedResourceListeners := [];
    }

    /** The debug name the buffer holds. */
    function DebugName(): (r: seq<char>)
      requires Valid()
      reads this, debugName
      ensures IsCString(r) && |r| < DEBUG_NAME_CAPACITY
    {
      CStringOf(debugName[..])
    }

    /** Copies at most 256 characters, pads with zeros, and forces the last one to zero. */
    method SetDebugName(name: seq<char>)
      requires Valid() && IsCString(name)
      modifies debugName
      ensures Valid()
      ensures debugName[..] == StoredDebugName(name)
      ensures DebugName() == if |name| < DEBUG_NAME_CAPACITY then name else name[..DEBUG_NAME_CAPACITY - 1]
    {
      var i := 0;
      while i < DEBUG_NAME_CAPACITY
        invariant 0 <= i <= DEBUG_NAME_CAPACITY
        invariant forall k :: 0 <= k < i ==> debugName[k] == (if k < |name| then name[k] else NUL)
      {
        debugName[i] := if i < |name| then name[i] else NUL;
        i := i + 1;
      }
      debugName[DEBUG_NAME_CAPACITY - 1] := NUL;
      assert debugName[..] == StoredDebugName(name);
      DebugNameReadBack(name);
    }

    /** Only callable while a manager owns the resource. */
    function GetResourceManager(): (m: ResourceManagerHandle)
      requires resourceManager.Some?
      reads this
      ensures resourceManager == Some(m)
    {
      resourceManager.value
    }

    method ConnectResourceListener(listener: ListenerHandle)
      requires Valid()
      modifies this
      ensures Valid()
      ensures sortedResourceListeners == InsertListener(old(sortedResourceListeners), listener)
      ensures resourceManager == old(resourceManager) && resourceId == old(resourceId) && assetId == old(assetId)
      ensures resourceLoaderTypeId == old(resourceLoaderTypeId) && loadingState == old(loadingState)
    {
      sortedResourceListeners := InsertListener(sortedResourceListeners, listener);
    }

    method DisconnectResourceListener(listener: ListenerHandle)
      requires Valid()
      modifies this
      ensures Valid()
      ensures sortedResourceListeners == RemoveListener(old(sortedResourceListeners), listener)
      ensures resourceManager == old(resourceManager) && resourceId == old(resourceId) && assetId == old(assetId)
      ensures resourceLoaderTypeId == old(resourceLoaderTypeId) && loadingState == old(loadingState)
    {
      sortedResourceListeners := RemoveListener(sortedResourceListeners, listener);
    }

    method SetResourceManager(resourceManager: Option<ResourceManagerHandle>)
      modifies this
      ensures this.resourceManager == resourceManager
      ensures resourceId == old(resourceId) && assetId == old(assetId) && resourceLoaderTypeId == old(resourceLoaderTypeId)
      ensures loadingState == old(loadingState) && sortedResourceListeners == old(sortedResourceListeners)
    {
      this.resourceManager := resourceManager;
    }

    method SetAssetId(assetId: u32)
      modifies this
      ensures this.assetId == assetId
      ensures resourceManager == old(resourceManager) && resourceId == old(resourceId) && resourceLoaderTypeId == old(resourceLoaderTypeId)
      ensures loadingState == old(loadingState) && sortedResourceListeners == old(sortedResourceListeners)
    {
      this.assetId := assetId;
    }

    method SetResourceLoaderTypeId(resourceLoaderTypeId: u32)
      modifies this
      ensures this.resourceLoaderTypeId == resourceLoaderTypeId
      ensures resourceManager == old(resourceManager) && resourceId == old(resourceId) && assetId == old(assetId)
      ensures loadingState == old(loadingState) && sortedResourceListeners == old(sortedResourceListeners)
    {
      this.resourceLoaderTypeId := resourceLoaderTypeId;
    }

    method SetLoadingState(loadingState: LoadingState)
      modifies this
      ensures this.loadingState == loadingState
      ensures resourceManager == old(resourceManager) && resourceId == old(resourceId) && assetId == old(assetId)
      ensures resourceLoaderTypeId == old(resourceLoaderTypeId) && sortedResourceListeners == old(sortedResourceListeners)
    {
      this.loadingState := loadingState;
    }

    /** Taking a fresh element into use: only the resource ID is set. */
    method InitializeElement(resourceId: u32)
      requires IsFresh()
      modifies this
      ensures this.resourceId == resourceId
      ensures resourceManager == None && !IsValid(assetId) && !IsValid(resourceLoaderTypeId)
      ensures loadingState == UNLOADED && sortedResourceListeners == []
    {
      this.resourceId := resourceId;
    }
  }

  /** A fresh element may be destroyed; the destructor also tolerates a failed load. */
  lemma FreshMayBeDestroyed(r: IResource)
    requires r.IsFresh()
    ensures r.MayBeDestroyed()
  {
  }

  /** Once it has a valid resource ID, an element must be deinitialized before destruction. */
  lemma InitializedMustBeDeinitialized(r: IResource)
    requires IsValid(r.resourceId)
    ensures !r.MayBeDestroyed() && !r.IsFresh()
  {
  }
}
