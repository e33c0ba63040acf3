/**
  Properties of the earlier encoder of `_XMLEncoder.swift`, and where its
  observable rules part from those of `XMLEncoderInternal.swift`.
 */
module LegacyProperties {

  import opened Results
  import opened Nodes
  import opened Keys
  import opened Values
  import opened EncoderStorage
  import opened LegacyEncoder
  import Encoder
  import EncoderProperties
  import Decimal

  // ---------------------------------------------------------------------------
  // Running sessions

  lemma OneSession(ns: map<string, string>, a: Session, st: Option<Storage>)
    ensures RunSession(ns, a, st).Ok? ==> RunSessions(ns, [a], st) == Ok(Some(RunSession(ns, a, st).value))
    ensures RunSession(ns, a, st).Fatal? ==> RunSessions(ns, [a], st) == Fatal(RunSession(ns, a, st).error)
  {
    assert [a][1..] == [];
  }

  lemma OneKeyedWrite(ns: map<string, string>, a: KeyedOp, s: Storage)
    ensures RunKeyedOps(ns, [a], s) == KeyedStep(ns, s, a)
  {
    assert [a][1..] == [];
  }

  lemma TwoKeyedWrites(ns: map<string, string>, a: KeyedOp, b: KeyedOp, s: Storage)
    requires KeyedStep(ns, s, a).Ok?
    ensures RunKeyedOps(ns, [a, b], s) == RunKeyedOps(ns, [b], KeyedStep(ns, s, a).value)
  {
    assert [a, b][1..] == [b];
  }

  /** A value that acquires one keyed container: its child encoder holds what the writes built from empty keyed storage. */
  lemma KeyedValueChild(ns: map<string, string>, ops: seq<KeyedOp>, m: Option<ElementMode>)
    ensures var r := RunKeyedOps(ns, ops, Fresh(KeyedStorage));
      && (r.Ok? ==> ChildStorage(ns, Custom([KeyedSession(ops)], m)) == Ok(Some(r.value)))
      && (r.Fatal? ==> ChildStorage(ns, Custom([KeyedSession(ops)], m)) == Fatal(r.error))
  {
    OneSession(ns, KeyedSession(ops), None);
  }

  /** A value whose `encode(to:)` is one single-value write. */
  lemma SingleWriteChild(ns: map<string, string>, v: Value, op: SingleOp)
    requires HostSessions(v) == [SingleSession([op])]
    ensures SingleStep(Fresh(SingleValueStorage), op).Ok? ==>
      ChildStorage(ns, v) == Ok(Some(SingleStep(Fresh(SingleValueStorage), op).value))
    ensures SingleStep(Fresh(SingleValueStorage), op).Fatal? ==>
      ChildStorage(ns, v) == Fatal(SingleStep(Fresh(SingleValueStorage), op).error)
  {
    var s := Fresh(SingleValueStorage);
    assert RunSingleOps([op], s) == SingleStep(s, op) by {
      assert [op][1..] == [];
    }
    OneSession(ns, SingleSession([op]), None);
  }

  // ---------------------------------------------------------------------------
  // Keyed container

  /**
    A string under a key becomes one element named `prefix:key` or the plain
    key, holding that string; an integer of any width is written as the string
    of its decimal digits, which reads back as the same integer.
   */
  lemma KeyedStringWrite(ns: map<string, string>, s: Storage, key: Key, t: string, i: int)
    ensures KeyedStep(ns, s, KString(key, t)) == Ok(AppendNode(s, Element(Render(ns, key), [], [Text(t)])))
    ensures Registered(ns, key) ==> Render(ns, key) == ns[key.namespace.value] + ":" + key.name
    ensures !Registered(ns, key) ==> Render(ns, key) == key.name
    ensures KeyedStep(ns, s, KInteger(key, i)) == KeyedStep(ns, s, KString(key, Decimal.Show(i)))
    ensures Decimal.Parse(Decimal.Show(i)) == Some(i)
  {
    Decimal.ParseShow(i);
  }

  /**
    The generic keyed write of a value that is not a marker always appends
    exactly one element named after the key, whose attributes and children are
    the child's: an empty element when the child created no storage.
   */
  lemma KeyedAlwaysEmits(ns: map<string, string>, s: Storage, key: Key, v: Value)
    requires AsAttribute(v).None? && AsInlineText(v).None?
    requires ChildStorage(ns, v).Ok?
    ensures var child := ChildStorage(ns, v).value;
      KeyedEncode(ns, s, key, v) == Ok(AppendNode(s, Element(Render(ns, key),
        if child.Some? then child.value.attributes else [],
        if child.Some? then child.value.nodes else [])))
  {
  }

  /**
    The two variants part on a record with no fields: the later one writes
    nothing for it, the earlier one an empty element named after the key.
   */
  lemma EmptyRecordContrast(opts: Encoder.Options, s: Storage, key: Key)
    ensures Encoder.KeyedEncode(opts, s, key, Custom([KeyedSession([])], None)) == Ok(s)
    ensures KeyedEncode(opts.namespaces, s, key, Custom([KeyedSession([])], None))
      == Ok(AppendNode(s, Element(Render(opts.namespaces, key), [], [])))
  {
    var v := Custom([KeyedSession([])], None);
    EncoderProperties.KeyedValueChild(opts, [], None);
    KeyedValueChild(opts.namespaces, [], None);
    assert Encoder.ChildValue(opts, v) == v;
  }

  /** A `Bool`, floating-point or nil field makes the whole keyed write fatal, through either overload. */
  lemma PrimitiveFieldFatal(ns: map<string, string>, s: Storage, key: Key, v: Value)
    requires v.Boolean? || v.Double? || v.Float? || v.Date? || v == Optional(None)
    ensures KeyedStep(ns, s, KValue(key, v)) == Fatal(PrimitiveWriteUnsupported)
    ensures v.Boolean? ==> KeyedStep(ns, s, KBool(key, v.b)) == Fatal(PrimitiveWriteUnsupported)
    ensures v == Optional(None) ==> KeyedStep(ns, s, KNil(key)) == Fatal(PrimitiveWriteUnsupported)
  {
    SingleWriteChild(ns, v, HostSessions(v)[0].sops[0]);
  }

  /**
    A non-nil `Optional` that is not an attribute or inline-text marker ends in
    the single-value container's generic write, which is fatal here too: under
    a key and as a sequence member.
   */
  lemma WrappedOptionalFatal(ns: map<string, string>, s: Storage, key: Key, w: Value)
    requires EncoderProperties.Unmarked(Optional(Some(w)))
    ensures ChildStorage(ns, Optional(Some(w))) == Fatal(GenericSingleValueWrite)
    ensures KeyedStep(ns, s, KValue(key, Optional(Some(w)))) == Fatal(GenericSingleValueWrite)
    ensures UnkeyedStep(ns, s, UValue(Optional(Some(w)))) == Fatal(GenericSingleValueWrite)
  {
    SingleWriteChild(ns, Optional(Some(w)), SValue(w));
  }

  // ---------------------------------------------------------------------------
  // Unkeyed container

  /** A string member becomes an element named `element` holding it; an integer member its decimal string. */
  lemma SequenceStringWrite(ns: map<string, string>, s: Storage, t: string, i: int)
    ensures UnkeyedStep(ns, s, UString(t)) == Ok(AppendNode(s, Element("element", [], [Text(t)])))
    ensures UnkeyedStep(ns, s, UInteger(i)) == UnkeyedStep(ns, s, UString(Decimal.Show(i)))
  {
  }

  /**
    A generic sequence member: when the child's first node is an element, that
    element alone is appended; otherwise one `element` element wraps all the
    child wrote. Either way exactly one element is appended.
   */
  lemma SequenceMember(ns: map<string, string>, s: Storage, v: Value)
    requires ChildStorage(ns, v).Ok?
    ensures var child := ChildStorage(ns, v).value;
      var nodes := if child.Some? then child.value.nodes else [];
      && (|nodes| > 0 && nodes[0].Element? ==> UnkeyedEncode(ns, s, v) == Ok(AppendNode(s, nodes[0])))
      && (!(|nodes| > 0 && nodes[0].Element?) ==>
            UnkeyedEncode(ns, s, v) == Ok(AppendNode(s, Element("element", if child.Some? then child.value.attributes else [], nodes))))
  {
  }

  /** The child encoder of a record with two string fields holds their two elements. */
  lemma TwoFieldRecordChild(ns: map<string, string>, k1: Key, t1: string, k2: Key, t2: string)
    ensures ChildStorage(ns, Custom([KeyedSession([KString(k1, t1), KString(k2, t2)])], None))
      == Ok(Some(Storage(KeyedStorage, [
           Element(Render(ns, k1), [], [Text(t1)]),
           Element(Render(ns, k2), [], [Text(t2)])], [])))
  {
    var a, b := KString(k1, t1), KString(k2, t2);
    var s0 := Fresh(KeyedStorage);
    var s1 := KeyedStep(ns, s0, a).value;
    TwoKeyedWrites(ns, a, b, s0);
    OneKeyedWrite(ns, b, s1);
    KeyedValueChild(ns, [a, b], None);
    var s2 := KeyedStep(ns, s1, b).value;
    assert s2.nodes == [Element(Render(ns, k1), [], [Text(t1)]), Element(Render(ns, k2), [], [Text(t2)])];
  }

  /**
    A record member of a sequence keeps only its first field: the member
    `{k1: t1, k2: t2}` appends `<k1>t1</k1>` and `k2` is lost.
   */
  lemma LaterSiblingsDropped(ns: map<string, string>, s: Storage, k1: Key, t1: string, k2: Key, t2: string)
    ensures var member := Custom([KeyedSession([KString(k1, t1), KString(k2, t2)])], None);
      UnkeyedStep(ns, s, UValue(member)) == Ok(AppendNode(s, Element(Render(ns, k1), [], [Text(t1)])))
  {
    TwoFieldRecordChild(ns, k1, t1, k2, t2);
  }

  /**
    The later variant keeps the whole record member: with the child storage's
    keyed mode it appends one element holding both fields.
   */
  lemma RecordMemberKept(opts: Encoder.Options, s: Storage, k1: Key, t1: string, k2: Key, t2: string, name: string)
    requires opts.storageModes.keyed == Keyed(name)
    ensures var member := Custom([KeyedSession([KString(k1, t1), KString(k2, t2)])], None);
      Encoder.UnkeyedStep(opts, s, UValue(member)) == Ok(AppendNode(s, Element(name, [], [
        Element(Render(opts.namespaces, k1), [], [Text(t1)]),
        Element(Render(opts.namespaces, k2), [], [Text(t2)])])))
  {
    var a, b := KString(k1, t1), KString(k2, t2);
    var s0 := Fresh(KeyedStorage);
    EncoderProperties.KeyedStringWrite(opts, s0, k1, t1);
    var s1 := AppendNode(s0, Element(Render(opts.namespaces, k1), [], [Text(t1)]));
    EncoderProperties.KeyedStringWrite(opts, s1, k2, t2);
    var s2 := AppendNode(s1, Element(Render(opts.namespaces, k2), [], [Text(t2)]));
    assert [a, b][1..] == [b];
    EncoderProperties.OneKeyedWrite(opts, b, s1);
    assert Encoder.RunKeyedOps(opts, [a, b], s0) == Ok(s2);
    EncoderProperties.KeyedValueChild(opts, [a, b], None);
    assert s2.nodes == [Element(Render(opts.namespaces, k1), [], [Text(t1)]), Element(Render(opts.namespaces, k2), [], [Text(t2)])];
  }

  // ---------------------------------------------------------------------------
  // Single-value container and acquisition

  /** A scalar written into an encoder that already has storage is fatal; a string into a fresh one is one text node. */
  lemma SingleValueAcquisition(ns: map<string, string>, t: string, s: Storage)
    ensures EncodeTo(ns, Str(t), Some(s)) == Fatal(SingleValueContainerReacquired)
    ensures EncodeTo(ns, Str(t), None) == Ok(Some(Storage(SingleValueStorage, [Text(t)], [])))
  {
    OneSession(ns, SingleSession([SString(t)]), Some(s));
    SingleWriteChild(ns, Str(t), SString(t));
    assert SingleStep(Fresh(SingleValueStorage), SString(t)).value.nodes == [Text(t)];
  }

  /** Two keyed sessions on one encoder write into the same storage, one after the other. */
  lemma KeyedReacquisitionReuses(ns: map<string, string>, a: seq<KeyedOp>, b: seq<KeyedOp>)
    requires RunKeyedOps(ns, a, Fresh(KeyedStorage)).Ok?
    ensures RunSessions(ns, [KeyedSession(a), KeyedSession(b)], None) ==
      RunSessions(ns, [KeyedSession(b)], Some(RunKeyedOps(ns, a, Fresh(KeyedStorage)).value))
    ensures var s1 := RunKeyedOps(ns, a, Fresh(KeyedStorage)).value;
      RunSession(ns, KeyedSession(b), Some(s1)) == RunKeyedOps(ns, b, s1)
  {
    assert [KeyedSession(a), KeyedSession(b)][1..] == [KeyedSession(b)];
  }

  /** The document of a record is the root element around whatever its writes built. */
  lemma DocumentWrapsStorage(ns: map<string, string>, v: Value, name: string)
    ensures EncodeTo(ns, v, None).Fatal? ==> EncodeDocument(ns, v, name) == Fatal(EncodeTo(ns, v, None).error)
    ensures EncodeTo(ns, v, None).Ok? ==>
      var st := EncodeTo(ns, v, None).value;
      EncodeDocument(ns, v, name) == Ok(Element(name,
        if st.Some? then st.value.attributes else [],
        if st.Some? then st.value.nodes else []))
  {
  }
}
