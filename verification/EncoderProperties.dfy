/**
  Properties of the tree-building encoder of `XMLEncoderInternal.swift`:
  how each kind of write composes nodes, the nil strategy, sequence-member
  element modes, leaf conversions and container acquisition.
 */
module EncoderProperties {

  import opened Results
  import opened Nodes
  import opened Keys
  import opened Values
  import opened EncoderStorage
  import opened Conversions
  import opened Encoder
  import Decimal
  import Base64

  /** Not a marker: the write goes through a child encoder. */
  predicate Unmarked(v: Value)
  {
    AsAttribute(v).None? && AsInlineText(v).None?
  }

  // ---------------------------------------------------------------------------
  // Running sessions

  /** One session run from `st`: its result, as an encoder state. */
  lemma OneSession(opts: Options, a: Session, st: Option<Storage>)
    ensures RunSession(opts, a, st).Ok? ==> RunSessions(opts, [a], st) == Ok(Some(RunSession(opts, a, st).value))
    ensures RunSession(opts, a, st).Fatal? ==> RunSessions(opts, [a], st) == Fatal(RunSession(opts, a, st).error)
  {
    assert [a][1..] == [];
  }

  /** Two sessions run from `st`: the second starts from the first's storage. */
  lemma TwoSessions(opts: Options, a: Session, b: Session, st: Option<Storage>)
    ensures RunSession(opts, a, st).Fatal? ==> RunSessions(opts, [a, b], st) == Fatal(RunSession(opts, a, st).error)
    ensures RunSession(opts, a, st).Ok? ==>
      RunSessions(opts, [a, b], st) == RunSessions(opts, [b], Some(RunSession(opts, a, st).value))
  {
    assert [a, b][1..] == [b];
  }

  /** A value whose `encode(to:)` is one single-value write leaves its child encoder holding that write's result. */
  lemma SingleWriteChild(opts: Options, v: Value, op: SingleOp)
    requires HostSessions(ChildValue(opts, v)) == [SingleSession([op])]
    requires !op.SValue?
    ensures ChildStorage(opts, v) == Ok(Some(SingleStep(opts, Fresh(SingleValueStorage), op).value))
  {
    var s := Fresh(SingleValueStorage);
    assert RunSingleOps(opts, [op], s) == SingleStep(opts, s, op) by {
      assert [op][1..] == [];
    }
    assert RunSession(opts, SingleSession([op]), None) == SingleStep(opts, s, op);
    OneSession(opts, SingleSession([op]), None);
    assert ChildStorage(opts, v) == RunSessions(opts, [SingleSession([op])], None);
  }

  // ---------------------------------------------------------------------------
  // Child encoders for leaf values

  /** A string value makes its child encoder hold exactly one text node. */
  lemma StringChild(opts: Options, t: string)
    ensures ChildStorage(opts, Str(t)) == Ok(Some(Storage(SingleValueStorage, [Text(t)], [])))
  {
    SingleWriteChild(opts, Str(t), SString(t));
    assert AppendNode(Fresh(SingleValueStorage), Text(t)).nodes == [Text(t)];
  }

  /** An integer of any width makes its child encoder hold its decimal text. */
  lemma IntegerChild(opts: Options, i: int)
    ensures ChildStorage(opts, Integer(i)) == Ok(Some(Storage(SingleValueStorage, [Text(Decimal.Show(i))], [])))
  {
    SingleWriteChild(opts, Integer(i), SInteger(i));
    assert AppendNode(Fresh(SingleValueStorage), Text(Decimal.Show(i))).nodes == [Text(Decimal.Show(i))];
  }

  /** A value that acquires one keyed container: its child encoder holds what the writes built from empty keyed storage. */
  lemma KeyedValueChild(opts: Options, ops: seq<KeyedOp>, m: Option<ElementMode>)
    ensures var r := RunKeyedOps(opts, ops, Fresh(KeyedStorage));
      && (r.Ok? ==> ChildStorage(opts, Custom([KeyedSession(ops)], m)) == Ok(Some(r.value)))
      && (r.Fatal? ==> ChildStorage(opts, Custom([KeyedSession(ops)], m)) == Fatal(r.error))
  {
    OneSession(opts, KeyedSession(ops), None);
  }

  /** A value that acquires one unkeyed container: its child encoder holds what the writes built from empty unkeyed storage. */
  lemma UnkeyedValueChild(opts: Options, ops: seq<UnkeyedOp>, m: Option<ElementMode>)
    ensures var r := RunUnkeyedOps(opts, ops, Fresh(UnkeyedStorage));
      && (r.Ok? ==> ChildStorage(opts, Custom([UnkeyedSession(ops)], m)) == Ok(Some(r.value)))
      && (r.Fatal? ==> ChildStorage(opts, Custom([UnkeyedSession(ops)], m)) == Fatal(r.error))
  {
    OneSession(opts, UnkeyedSession(ops), None);
  }

  // ---------------------------------------------------------------------------
  // Keyed container

  /**
    On the default keyed path the container is left exactly as it was if and
    only if the child encoder created no storage or wrote nothing into it.
   */
  lemma EmptyChildVanishes(opts: Options, s: Storage, key: Key, v: Value)
    requires Unmarked(v)
    requires ChildStorage(opts, v).Ok?
    ensures KeyedEncode(opts, s, key, v) == Ok(s) <==>
      (ChildStorage(opts, v).value.None? || IsEmpty(ChildStorage(opts, v).value.value))
  {
    var child := ChildStorage(opts, v).value;
    if child.Some? && !IsEmpty(child.value) {
      var r := KeyedEncode(opts, s, key, v);
      assert |r.value.nodes| + |r.value.attributes| == |s.nodes| + |s.attributes| + 1;
    }
  }

  /**
    The default keyed path appends exactly one element, named `prefix:key`
    when the key's namespace is registered and the plain key otherwise, whose
    attributes and children are the child storage's, in order.
   */
  lemma DefaultKeyedPath(opts: Options, s: Storage, key: Key, v: Value, c: Storage)
    requires Unmarked(v)
    requires ChildStorage(opts, v) == Ok(Some(c)) && !IsEmpty(c)
    requires !(HasOptionalAttributeType(v) && |c.nodes| > 0)
    ensures KeyedEncode(opts, s, key, v) == Ok(AppendNode(s, Element(Render(opts.namespaces, key), c.attributes, c.nodes)))
    ensures Registered(opts.namespaces, key) ==>
      Render(opts.namespaces, key) == opts.namespaces[key.namespace.value] + ":" + key.name
    ensures !Registered(opts.namespaces, key) ==> Render(opts.namespaces, key) == key.name
  {
  }

  /**
    A value of static type `Optional<CodableXMLAttribute>` that reaches the
    default path with a non-empty child becomes one attribute holding the text
    of the child's first node; no element is written.
   */
  lemma OptionalAttributePath(opts: Options, s: Storage, key: Key, v: Value, c: Storage)
    requires Unmarked(v) && HasOptionalAttributeType(v)
    requires ChildStorage(opts, v) == Ok(Some(c)) && |c.nodes| > 0
    ensures KeyedEncode(opts, s, key, v) == Ok(AppendAttr(s, Attr(Render(opts.namespaces, key), StringValue(c.nodes[0]))))
  {
  }

  /** A string write under a key appends one element holding that text. */
  lemma KeyedStringWrite(opts: Options, s: Storage, key: Key, t: string)
    ensures KeyedStep(opts, s, KString(key, t)) == Ok(AppendNode(s, Element(Render(opts.namespaces, key), [], [Text(t)])))
  {
    StringChild(opts, t);
  }

  /**
    Every integer width is written as an element holding its decimal text, and
    that text reads back as the same integer.
   */
  lemma KeyedIntegerWrite(opts: Options, s: Storage, key: Key, i: int)
    ensures KeyedStep(opts, s, KInteger(key, i)) ==
      Ok(AppendNode(s, Element(Render(opts.namespaces, key), [], [Text(Decimal.Show(i))])))
    ensures Decimal.Parse(Decimal.Show(i)) == Some(i)
  {
    IntegerChild(opts, i);
    Decimal.ParseShow(i);
  }

  /**
    A `Bool` is written as the strategy's true or false string, through the
    typed overload and through the generic write alike.
   */
  lemma KeyedBoolWrite(opts: Options, s: Storage, key: Key, b: bool)
    ensures KeyedStep(opts, s, KBool(key, b)) ==
      Ok(AppendNode(s, Element(Render(opts.namespaces, key), [], [Text(if b then opts.boolStrategy.trueValue else opts.boolStrategy.falseValue)])))
    ensures KeyedStep(opts, s, KValue(key, Boolean(b))) == KeyedStep(opts, s, KBool(key, b))
  {
    StringChild(opts, ConvertBool(opts.boolStrategy, b));
    var t := ConvertBool(opts.boolStrategy, b);
    assert ChildValue(opts, Str(t)) == Str(t);
    assert ChildStorage(opts, Boolean(b)) == EncodeTo(opts, Str(t), None) == ChildStorage(opts, Str(t));
    assert KeyedStep(opts, s, KBool(key, b)) == KeyedEncode(opts, s, key, Str(t));
    assert KeyedStep(opts, s, KValue(key, Boolean(b))) == KeyedEncode(opts, s, key, Boolean(b));
  }

  /** `Data` is written as an element holding its Base64 text, which decodes to the same bytes. */
  lemma KeyedDataWrite(opts: Options, s: Storage, key: Key, data: seq<Base64.byte>)
    ensures KeyedStep(opts, s, KValue(key, Bytes(data))) ==
      Ok(AppendNode(s, Element(Render(opts.namespaces, key), [], [Text(Base64.Encode(data))])))
    ensures Base64.Decode(Base64.Encode(data)) == Some(data)
  {
    var t := Base64.Encode(data);
    StringChild(opts, t);
    assert ChildValue(opts, Bytes(data)) == Str(t);
    assert ChildStorage(opts, Bytes(data)) == EncodeTo(opts, Str(t), None) == ChildStorage(opts, Str(t));
    assert KeyedStep(opts, s, KValue(key, Bytes(data))) == KeyedEncode(opts, s, key, Bytes(data));
    Base64.DecodeEncode(data);
  }

  // ---------------------------------------------------------------------------
  // Nil strategy

  /**
    Keyed `encodeNil` is exactly a keyed write of `""` under the empty-nil
    strategy, which appends one element holding empty text; under any other
    strategy it leaves the container unchanged.
   */
  lemma KeyedNilStrategy(opts: Options, s: Storage, key: Key)
    ensures opts.nilStrategy == EmptyNil ==> KeyedNil(opts, s, key) == KeyedEncode(opts, s, key, Str(""))
    ensures opts.nilStrategy == EmptyNil ==>
      KeyedNil(opts, s, key) == Ok(AppendNode(s, Element(Render(opts.namespaces, key), [], [Text("")])))
    ensures opts.nilStrategy != EmptyNil ==> KeyedNil(opts, s, key) == Ok(s)
  {
    StringChild(opts, "");
  }

  /**
    Unkeyed `encodeNil` is exactly an unkeyed write of `""` under the
    empty-nil strategy, placed by the single-value storage's mode; under any
    other strategy it leaves the container unchanged.
   */
  lemma UnkeyedNilStrategy(opts: Options, s: Storage)
    ensures opts.nilStrategy == EmptyNil ==> UnkeyedNil(opts, s) == UnkeyedEncode(opts, s, Str(""))
    ensures opts.nilStrategy == EmptyNil && opts.storageModes.singleValue == Inline ==>
      UnkeyedNil(opts, s) == Ok(AppendNode(s, Text("")))
    ensures opts.nilStrategy == EmptyNil && opts.storageModes.singleValue.Keyed? ==>
      UnkeyedNil(opts, s) == Ok(AppendNode(s, Element(opts.storageModes.singleValue.name, [], [Text("")])))
    ensures opts.nilStrategy != EmptyNil ==> UnkeyedNil(opts, s) == Ok(s)
  {
    StringChild(opts, "");
  }

  /**
    Single-value `encodeNil` is exactly a string write of `""` under the
    empty-nil strategy and a no-op otherwise.
   */
  lemma SingleNilStrategy(opts: Options, s: Storage)
    ensures opts.nilStrategy == EmptyNil ==> SingleStep(opts, s, SNil) == SingleStep(opts, s, SString(""))
    ensures opts.nilStrategy == EmptyNil ==> SingleStep(opts, s, SNil) == Ok(AppendNode(s, Text("")))
    ensures opts.nilStrategy != EmptyNil ==> SingleStep(opts, s, SNil) == Ok(s)
  {
  }

  /** A nil child encoder: one single-value storage, holding `""` only under the empty-nil strategy. */
  lemma NilChild(opts: Options, v: Value)
    requires v.NilAttribute? || v == Optional(None)
    ensures opts.nilStrategy == EmptyNil ==> ChildStorage(opts, v) == Ok(Some(Storage(SingleValueStorage, [Text("")], [])))
    ensures opts.nilStrategy != EmptyNil ==> ChildStorage(opts, v) == Ok(Some(Fresh(SingleValueStorage)))
  {
    SingleWriteChild(opts, v, SNil);
    assert AppendNode(Fresh(SingleValueStorage), Text("")).nodes == [Text("")];
  }

  /**
    A nil optional attribute under a key: the attribute `key=""` under the
    empty-nil strategy, nothing at all otherwise.
   */
  lemma NilOptionalAttribute(opts: Options, s: Storage, key: Key)
    ensures opts.nilStrategy == EmptyNil ==>
      KeyedEncode(opts, s, key, NilAttribute) == Ok(AppendAttr(s, Attr(Render(opts.namespaces, key), "")))
    ensures opts.nilStrategy != EmptyNil ==> KeyedEncode(opts, s, key, NilAttribute) == Ok(s)
  {
    NilChild(opts, NilAttribute);
  }

  /**
    Any other nil optional under a key: an element holding empty text under the
    empty-nil strategy, nothing at all otherwise.
   */
  lemma NilOptionalElement(opts: Options, s: Storage, key: Key)
    ensures opts.nilStrategy == EmptyNil ==>
      KeyedEncode(opts, s, key, Optional(None)) == Ok(AppendNode(s, Element(Render(opts.namespaces, key), [], [Text("")])))
    ensures opts.nilStrategy != EmptyNil ==> KeyedEncode(opts, s, key, Optional(None)) == Ok(s)
  {
    NilChild(opts, Optional(None));
  }

  /**
    A non-nil `Optional` that is not an attribute or inline-text marker is
    handed by `Optional.encode(to:)` to the single-value container's generic
    write, which is fatal; so writing it under a key or as a sequence member
    is fatal too.
   */
  lemma WrappedOptionalFatal(opts: Options, s: Storage, key: Key, w: Value)
    requires Unmarked(Optional(Some(w)))
    ensures ChildStorage(opts, Optional(Some(w))) == Fatal(GenericSingleValueWrite)
    ensures KeyedEncode(opts, s, key, Optional(Some(w))) == Fatal(GenericSingleValueWrite)
    ensures UnkeyedEncode(opts, s, Optional(Some(w))) == Fatal(GenericSingleValueWrite)
  {
    var v := Optional(Some(w));
    var op := SValue(w);
    var empty := Fresh(SingleValueStorage);
    assert ChildValue(opts, v) == v;
    assert RunSingleOps(opts, [op], empty) == Fatal(GenericSingleValueWrite);
    assert RunSession(opts, SingleSession([op]), None) == Fatal(GenericSingleValueWrite);
    OneSession(opts, SingleSession([op]), None);
    assert ChildStorage(opts, v) == RunSessions(opts, [SingleSession([op])], None);
  }

  // ---------------------------------------------------------------------------
  // Unkeyed container

  /**
    A sequence member: fatal when its encoding created no storage; otherwise
    placed by the mode the value asks for when it asks for one, else by the
    child storage's own mode. Inline appends the child's nodes in order and
    drops its attributes; a keyed mode appends exactly one element of that name.
   */
  lemma SequenceMember(opts: Options, s: Storage, v: Value)
    requires ChildStorage(opts, v).Ok?
    ensures ChildStorage(opts, v).value.None? ==> UnkeyedEncode(opts, s, v) == Fatal(StorageNotCreated)
    ensures ChildStorage(opts, v).value.Some? ==>
      var c := ChildStorage(opts, v).value.value;
      var mode := if RequestedMode(opts, v).Some? then RequestedMode(opts, v).value
                  else StorageMode(opts.storageModes, c.kind);
      && (mode == Inline ==> UnkeyedEncode(opts, s, v) == Ok(Storage(s.kind, s.nodes + c.nodes, s.attributes)))
      && (mode.Keyed? ==> UnkeyedEncode(opts, s, v) == Ok(AppendNode(s, Element(mode.name, c.attributes, c.nodes))))
  {
  }

  /**
    Nothing a sequence member's encoding wrote is lost: what the member
    appends is exactly the child's nodes, or exactly one element holding the
    child's nodes and attributes.
   */
  lemma SequenceMemberKeepsNodes(opts: Options, s: Storage, v: Value)
    requires ChildStorage(opts, v).Ok? && ChildStorage(opts, v).value.Some?
    ensures var c := ChildStorage(opts, v).value.value;
      var r := UnkeyedEncode(opts, s, v);
      && r.Ok? && r.value.nodes[..|s.nodes|] == s.nodes
      && (r.value.nodes[|s.nodes|..] == c.nodes ||
          exists name :: r.value.nodes[|s.nodes|..] == [Element(name, c.attributes, c.nodes)])
  {
    var c := ChildStorage(opts, v).value.value;
    var r := UnkeyedEncode(opts, s, v);
    match MemberMode(opts, v, c)
    case Inline =>
      assert r.value.nodes == s.nodes + c.nodes;
      assert r.value.nodes[|s.nodes|..] == c.nodes;
    case Keyed(name) =>
      assert r.value.nodes == s.nodes + [Element(name, c.attributes, c.nodes)];
      assert r.value.nodes[|s.nodes|..] == [Element(name, c.attributes, c.nodes)];
  }

  /** A `Bool`, `Data`, `Date` or `URL` member is placed by the converted string's mode when it has one. */
  lemma ConvertedMemberMode(opts: Options, s: Storage, v: Value, m: ElementMode)
    requires v.Boolean? || v.Bytes? || v.Date? || v.Url?
    requires opts.convertedMode == Some(m)
    ensures var t := Converted(opts.boolStrategy, v).value;
      && (m == Inline ==> UnkeyedEncode(opts, s, v) == Ok(AppendNode(s, Text(t))))
      && (m.Keyed? ==> UnkeyedEncode(opts, s, v) == Ok(AppendNode(s, Element(m.name, [], [Text(t)]))))
  {
    StringChild(opts, Converted(opts.boolStrategy, v).value);
  }

  /** A member that reports its own mode is placed by it, whatever its storage reports. */
  lemma CustomModeWins(opts: Options, s: Storage, v: Value, m: ElementMode)
    requires v.Custom? && v.mode == Some(m)
    requires ChildStorage(opts, v).Ok? && ChildStorage(opts, v).value.Some?
    ensures var c := ChildStorage(opts, v).value.value;
      && (m == Inline ==> UnkeyedEncode(opts, s, v) == Ok(Storage(s.kind, s.nodes + c.nodes, s.attributes)))
      && (m.Keyed? ==> UnkeyedEncode(opts, s, v) == Ok(AppendNode(s, Element(m.name, c.attributes, c.nodes))))
  {
  }

  // ---------------------------------------------------------------------------
  // Container acquisition

  lemma {:induction false} RunKeyedOpsAppend(opts: Options, a: seq<KeyedOp>, b: seq<KeyedOp>, s: Storage)
    ensures RunKeyedOps(opts, a, s).Fatal? ==> RunKeyedOps(opts, a + b, s) == RunKeyedOps(opts, a, s)
    ensures RunKeyedOps(opts, a, s).Ok? ==> RunKeyedOps(opts, a + b, s) == RunKeyedOps(opts, b, RunKeyedOps(opts, a, s).value)
    decreases |a|
  {
    if |a| > 0 {
      assert (a + b)[0] == a[0];
      assert (a + b)[1..] == a[1..] + b;
      match KeyedStep(opts, s, a[0])
      case Ok(s1) => RunKeyedOpsAppend(opts, a[1..], b, s1);
      case Fatal(_) =>
    } else {
      assert a + b == b;
    }
  }

  lemma {:induction false} RunUnkeyedOpsAppend(opts: Options, a: seq<UnkeyedOp>, b: seq<UnkeyedOp>, s: Storage)
    ensures RunUnkeyedOps(opts, a, s).Fatal? ==> RunUnkeyedOps(opts, a + b, s) == RunUnkeyedOps(opts, a, s)
    ensures RunUnkeyedOps(opts, a, s).Ok? ==> RunUnkeyedOps(opts, a + b, s) == RunUnkeyedOps(opts, b, RunUnkeyedOps(opts, a, s).value)
    decreases |a|
  {
    if |a| > 0 {
      assert (a + b)[0] == a[0];
      assert (a + b)[1..] == a[1..] + b;
      match UnkeyedStep(opts, s, a[0])
      case Ok(s1) => RunUnkeyedOpsAppend(opts, a[1..], b, s1);
      case Fatal(_) =>
    } else {
      assert a + b == b;
    }
  }

  /** A one-write list does exactly that write. */
  lemma OneKeyedWrite(opts: Options, a: KeyedOp, s: Storage)
    ensures RunKeyedOps(opts, [a], s) == KeyedStep(opts, s, a)
  {
    assert [a][1..] == [];
  }

  /** A one-write list does exactly that write. */
  lemma OneUnkeyedWrite(opts: Options, a: UnkeyedOp, s: Storage)
    ensures RunUnkeyedOps(opts, [a], s) == UnkeyedStep(opts, s, a)
  {
    assert [a][1..] == [];
  }

  /**
    Acquiring a keyed container a second time reuses the storage: two keyed
    sessions write exactly what one session with both write lists writes.
   */
  lemma KeyedReacquisitionReuses(opts: Options, a: seq<KeyedOp>, b: seq<KeyedOp>, st: Option<Storage>)
    ensures RunSessions(opts, [KeyedSession(a), KeyedSession(b)], st) == RunSessions(opts, [KeyedSession(a + b)], st)
  {
    TwoSessions(opts, KeyedSession(a), KeyedSession(b), st);
    OneSession(opts, KeyedSession(a + b), st);
    if AcquireKeyed(st).Ok? {
      RunKeyedOpsAppend(opts, a, b, AcquireKeyed(st).value);
    }
  }

  /** The same reuse for unkeyed containers. */
  lemma UnkeyedReacquisitionReuses(opts: Options, a: seq<UnkeyedOp>, b: seq<UnkeyedOp>, st: Option<Storage>)
    ensures RunSessions(opts, [UnkeyedSession(a), UnkeyedSession(b)], st) == RunSessions(opts, [UnkeyedSession(a + b)], st)
  {
    TwoSessions(opts, UnkeyedSession(a), UnkeyedSession(b), st);
    OneSession(opts, UnkeyedSession(a + b), st);
    if AcquireUnkeyed(st).Ok? {
      RunUnkeyedOpsAppend(opts, a, b, AcquireUnkeyed(st).value);
    }
  }

  /** The kind of storage a session leaves behind. */
  function SessionKind(session: Session): StorageKind
  {
    match session
    case KeyedSession(_) => KeyedStorage
    case UnkeyedSession(_) => UnkeyedStorage
    case SingleSession(_) => SingleValueStorage
  }

  /**
    A second acquisition after a successful first session: a single-value
    container is never granted, a keyed or unkeyed one only when the first
    session left storage of the same kind, and a mismatched kind fails the
    forced cast.
   */
  lemma SecondAcquisition(opts: Options, first: Session, second: Session)
    requires RunSession(opts, first, None).Ok?
    ensures second.SingleSession? ==>
      RunSessions(opts, [first, second], None) == Fatal(SingleValueContainerReacquired)
    ensures !second.SingleSession? && SessionKind(first) != SessionKind(second) ==>
      RunSessions(opts, [first, second], None) == Fatal(ContainerKindMismatch)
    ensures RunSessions(opts, [first, second], None).Fatal? ==>
      second.SingleSession? || SessionKind(first) != SessionKind(second) ||
      RunSession(opts, second, Some(RunSession(opts, first, None).value)).Fatal?
  {
    TwoSessions(opts, first, second, None);
    assert RunSession(opts, first, None).value.kind == SessionKind(first);
  }

  /** Encoding a scalar value into an encoder that already has storage is fatal. */
  lemma ScalarIntoExistingStorage(opts: Options, v: Value, s: Storage)
    requires v.Str? || v.Integer? || v.Boolean? || v.Double? || v.Float? || v == Optional(None)
    ensures EncodeTo(opts, v, Some(s)) == Fatal(SingleValueContainerReacquired)
  {
    var session := HostSessions(v)[0];
    assert HostSessions(v) == [session];
    OneSession(opts, session, Some(s));
  }

  /** `topElement` of a finished encoder wraps everything it holds, in order. */
  lemma DocumentWrapsStorage(opts: Options, v: Value, name: string)
    ensures EncodeTo(opts, v, None).Fatal? ==> EncodeDocument(opts, v, name) == Fatal(EncodeTo(opts, v, None).error)
    ensures EncodeTo(opts, v, None).Ok? ==>
      var st := EncodeTo(opts, v, None).value;
      EncodeDocument(opts, v, name) == Ok(Element(name,
        if st.Some? then st.value.attributes else [],
        if st.Some? then st.value.nodes else []))
  {
  }
}
