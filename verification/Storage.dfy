/**
  Container acquisition on an encoder's lazily created top-level storage, and
  reading that storage out as one element. Both encoder variants share this
  code unchanged.

  An encoder's state is `Option<Storage>`: `None` until a container is first
  requested. Requesting a keyed or unkeyed container creates storage of that
  kind, or reuses the existing storage when the kinds agree; when they do not,
  the forced cast `as!` traps. A single-value container may only be requested
  while no storage exists.
 */
module EncoderStorage {

  import opened Results
  import opened Nodes

  function Fresh(kind: StorageKind): (s: Storage)
    ensures s.kind == kind && IsEmpty(s)
  {
    Storage(kind, [], [])
  }

  /** `container(keyedBy:)` */
  function AcquireKeyed(st: Option<Storage>): (r: Result<Storage>)
    ensures r.Ok? <==> st.None? || st.value.kind == KeyedStorage
    ensures r.Ok? ==> r.value.kind == KeyedStorage
    ensures r.Ok? && st.Some? ==> r.value == st.value
    ensures st.None? ==> r == Ok(Fresh(KeyedStorage))
    ensures r.Fatal? ==> r.error == ContainerKindMismatch
  {
    match st
    case None => Ok(Fresh(KeyedStorage))
    case Some(s) => if s.kind == KeyedStorage then Ok(s) else Fatal(ContainerKindMismatch)
  }

  /** `unkeyedContainer()` */
  function AcquireUnkeyed(st: Option<Storage>): (r: Result<Storage>)
    ensures r.Ok? <==> st.None? || st.value.kind == UnkeyedStorage
    ensures r.Ok? ==> r.value.kind == UnkeyedStorage
    ensures r.Ok? && st.Some? ==> r.value == st.value
    ensures st.None? ==> r == Ok(Fresh(UnkeyedStorage))
    ensures r.Fatal? ==> r.error == ContainerKindMismatch
  {
    match st
    case None => Ok(Fresh(UnkeyedStorage))
    case Some(s) => if s.kind == UnkeyedStorage then Ok(s) else Fatal(ContainerKindMismatch)
  }

  /** `singleValueContainer()` */
  function AcquireSingle(st: Option<Storage>): (r: Result<Storage>)
    ensures r.Ok? <==> st.None?
    ensures r.Ok? ==> r.value == Fresh(SingleValueStorage)
    ensures r.Fatal? ==> r.error == SingleValueContainerReacquired
  {
    match st
    case None => Ok(Fresh(SingleValueStorage))
    case Some(_) => Fatal(SingleValueContainerReacquired)
  }

  /** `topElement(withName:)`: the storage's nodes and attributes under one element, or an empty element. */
  function TopElement(name: string, st: Option<Storage>): (n: Node)
    ensures n.Element? && n.name == name
    ensures st.Some? ==> n.children == st.value.nodes && n.attributes == st.value.attributes
    ensures st.None? ==> n.children == [] && n.attributes == []
  {
    match st
    case None => Element(name, [], [])
    case Some(s) => Element(name, s.attributes, s.nodes)
  }

  /**
    An encoder state in which only keyed storage carries attributes. Every state
    an encoder reaches from `None` has this shape.
   */
  predicate AttributesOnlyWhenKeyed(st: Option<Storage>)
  {
    st.Some? && st.value.kind != KeyedStorage ==> st.value.attributes == []
  }
}
