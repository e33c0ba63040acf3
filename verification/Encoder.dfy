/**
  The tree-building encoder of `XMLEncoderInternal.swift`.

  An encoder owns at most one storage (`Option<Storage>`). Each write into a
  keyed or unkeyed container that needs a nested value hands that value to a
  fresh child encoder (`ChildStorage`, which starts from `None`) and reads back
  the child's storage. `EncodeTo` stands for the host calling a value's
  `encode(to:)` on an encoder.
 */
module Encoder {

  import opened Results
  import opened Nodes
  import opened Keys
  import opened Values
  import opened EncoderStorage
  import opened Conversions
  import Decimal

  /** `nilEncodingStrategy`: only `.empty` changes behaviour; every other strategy omits. */
  datatype NilStrategy = OmitNil | EmptyNil

  /** The element mode each storage class reports for itself. */
  datatype StorageModes = StorageModes(keyed: ElementMode, unkeyed: ElementMode, singleValue: ElementMode)

  /**
    The configuration shared by an encoder and all its children: the nil and
    bool strategies, the namespace provider (namespace to prefix), the storage
    classes' element modes, and the element mode of a converted string.
   */
  datatype Options = Options(
    nilStrategy: NilStrategy,
    boolStrategy: BoolStrategy,
    namespaces: map<string, string>,
    storageModes: StorageModes,
    convertedMode: Option<ElementMode>)

  function StorageMode(modes: StorageModes, kind: StorageKind): ElementMode
  {
    match kind
    case KeyedStorage => modes.keyed
    case UnkeyedStorage => modes.unkeyed
    case SingleValueStorage => modes.singleValue
  }

  /** At most one node or one attribute was added, not both. */
  predicate AddsAtMostOne(earlier: Storage, later: Storage)
  {
    |later.nodes| + |later.attributes| <= |earlier.nodes| + |earlier.attributes| + 1
  }

  // ---------------------------------------------------------------------------
  // Single-value container

  /**
    One write into a single-value container. Strings become a text node; Bool,
    integers and formatted floating-point values are converted to a string
    first; a floating-point value the formatter cannot render writes nothing;
    nil writes `""` only under the empty-nil strategy; a generic value is fatal.
   */
  function SingleStep(opts: Options, s: Storage, op: SingleOp): (r: Result<Storage>)
    ensures r.Fatal? <==> op.SValue?
    ensures r.Fatal? ==> r.error == GenericSingleValueWrite
    ensures r.Ok? ==> Grows(s, r.value) && r.value.attributes == s.attributes
    ensures r.Ok? ==> |r.value.nodes| <= |s.nodes| + 1
    ensures r.Ok? ==> forall i :: |s.nodes| <= i < |r.value.nodes| ==> r.value.nodes[i].Text?
  {
    match op
    case SNil => if opts.nilStrategy == EmptyNil then Ok(AppendNode(s, Text(""))) else Ok(s)
    case SBool(b) => Ok(AppendNode(s, Text(ConvertBool(opts.boolStrategy, b))))
    case SString(t) => Ok(AppendNode(s, Text(t)))
    case SInteger(i) => Ok(AppendNode(s, Text(Decimal.Show(i))))
    case SDouble(rendered) => if rendered.Some? then Ok(AppendNode(s, Text(rendered.value))) else Ok(s)
    case SFloat(rendered) => if rendered.Some? then Ok(AppendNode(s, Text(rendered.value))) else Ok(s)
    case SValue(_) => Fatal(GenericSingleValueWrite)
  }

  function RunSingleOps(opts: Options, ops: seq<SingleOp>, s: Storage): (r: Result<Storage>)
    ensures r.Fatal? <==> exists i :: 0 <= i < |ops| && ops[i].SValue?
    ensures r.Ok? ==> Grows(s, r.value) && r.value.attributes == s.attributes
    ensures r.Ok? ==> |r.value.nodes| <= |s.nodes| + |ops|
    ensures r.Ok? ==> forall i :: |s.nodes| <= i < |r.value.nodes| ==> r.value.nodes[i].Text?
    decreases |ops|
  {
    if |ops| == 0 then Ok(s)
    else
      var s1 :- SingleStep(opts, s, ops[0]);
      var r := RunSingleOps(opts, ops[1..], s1);
      assert r.Fatal? <==> exists i :: 0 <= i < |ops| && ops[i].SValue? by {
        if exists i :: 0 <= i < |ops| && ops[i].SValue? {
          var i :| 0 <= i < |ops| && ops[i].SValue?;
          assert i > 0 ==> ops[1..][i - 1].SValue?;
        }
      }
      r
  }

  // ---------------------------------------------------------------------------
  // Encoding a value, and the keyed and unkeyed containers

  /** The value a child encoder is given: the converted string, or the value itself. */
  function ChildValue(opts: Options, v: Value): Value
  {
    match Converted(opts.boolStrategy, v)
    case Some(c) => Str(c)
    case None => v
  }

  /** The element mode the written value asks for, if any: the converted string's, or its own. */
  function RequestedMode(opts: Options, v: Value): Option<ElementMode>
  {
    if Converted(opts.boolStrategy, v).Some? then opts.convertedMode else ValueMode(v)
  }

  /** The mode a sequence member is placed with: the value's request, else the child storage's own. */
  function MemberMode(opts: Options, v: Value, child: Storage): ElementMode
  {
    match RequestedMode(opts, v)
    case Some(m) => m
    case None => StorageMode(opts.storageModes, child.kind)
  }

  /** The host calling `v.encode(to:)` on an encoder whose storage is `st`. */
  function EncodeTo(opts: Options, v: Value, st: Option<Storage>): (r: Result<Option<Storage>>)
    ensures r.Ok? && st.Some? ==> r.value.Some? && Grows(st.value, r.value.value)
    ensures r.Ok? && AttributesOnlyWhenKeyed(st) ==> AttributesOnlyWhenKeyed(r.value)
    decreases VSize(v), 0
  {
    HostSessionsSmaller(v);
    RunSessions(opts, HostSessions(v), st)
  }

  /** A fresh child encoder after encoding `v` (converted first when its type calls for it). */
  function ChildStorage(opts: Options, v: Value): (r: Result<Option<Storage>>)
    ensures r.Ok? ==> AttributesOnlyWhenKeyed(r.value)
    decreases VSize(v), 1
  {
    EncodeTo(opts, ChildValue(opts, v), None)
  }

  function RunSessions(opts: Options, ss: seq<Session>, st: Option<Storage>): (r: Result<Option<Storage>>)
    ensures r.Ok? && st.Some? ==> r.value.Some? && Grows(st.value, r.value.value)
    ensures r.Ok? && |ss| > 0 ==> r.value.Some?
    ensures r.Ok? && AttributesOnlyWhenKeyed(st) ==> AttributesOnlyWhenKeyed(r.value)
    decreases SessionsSize(ss), 7
  {
    if |ss| == 0 then Ok(st)
    else
      var s :- RunSession(opts, ss[0], st);
      RunSessions(opts, ss[1..], Some(s))
  }

  /** Acquire the session's container, then issue its writes through it. */
  function RunSession(opts: Options, session: Session, st: Option<Storage>): (r: Result<Storage>)
    ensures r.Ok? && st.Some? ==> Grows(st.value, r.value)
    ensures r.Ok? && AttributesOnlyWhenKeyed(st) ==> AttributesOnlyWhenKeyed(Some(r.value))
    decreases SessionSize(session), 6
  {
    match session
    case KeyedSession(ops) =>
      var s :- AcquireKeyed(st);
      RunKeyedOps(opts, ops, s)
    case UnkeyedSession(ops) =>
      var s :- AcquireUnkeyed(st);
      RunUnkeyedOps(opts, ops, s)
    case SingleSession(ops) =>
      var s :- AcquireSingle(st);
      RunSingleOps(opts, ops, s)
  }

  function RunKeyedOps(opts: Options, ops: seq<KeyedOp>, s: Storage): (r: Result<Storage>)
    ensures r.Ok? ==> Grows(s, r.value)
    ensures r.Ok? ==> |r.value.nodes| + |r.value.attributes| <= |s.nodes| + |s.attributes| + |ops|
    decreases KOpsSize(ops), 5
  {
    if |ops| == 0 then Ok(s)
    else
      var s1 :- KeyedStep(opts, s, ops[0]);
      RunKeyedOps(opts, ops[1..], s1)
  }

  /** One write through a keyed container, dispatched as Swift resolves the overload. */
  function KeyedStep(opts: Options, s: Storage, op: KeyedOp): (r: Result<Storage>)
    ensures r.Ok? ==> Grows(s, r.value) && AddsAtMostOne(s, r.value)
    decreases KOpSize(op), 4
  {
    match op
    case KNil(k) => KeyedNil(opts, s, k)
    case KBool(k, b) => KeyedBool(opts, s, k, b)
    case KString(k, t) => KeyedEncode(opts, s, k, Str(t))
    case KInteger(k, i) => KeyedEncode(opts, s, k, Integer(i))
    case KDouble(k, rendered) => KeyedEncode(opts, s, k, Double(rendered))
    case KFloat(k, rendered) => KeyedEncode(opts, s, k, Float(rendered))
    case KValue(k, v) => KeyedEncode(opts, s, k, v)
    case KNestedKeyed(_) => Fatal(NestedContainerUnsupported)
    case KNestedUnkeyed(_) => Fatal(NestedContainerUnsupported)
    case KSuper(_) => Fatal(SuperEncoderUnsupported)
  }

  /** `encodeNil(forKey:)`: the empty string under the empty-nil strategy, nothing otherwise. */
  function KeyedNil(opts: Options, s: Storage, key: Key): (r: Result<Storage>)
    ensures opts.nilStrategy != EmptyNil ==> r == Ok(s)
    ensures r.Ok? ==> Grows(s, r.value) && AddsAtMostOne(s, r.value)
    decreases 3, 3
  {
    if opts.nilStrategy == EmptyNil then KeyedEncode(opts, s, key, Str("")) else Ok(s)
  }

  /** `encode(_: Bool, forKey:)`: the strategy's string, written as a string value. */
  function KeyedBool(opts: Options, s: Storage, key: Key, b: bool): (r: Result<Storage>)
    ensures r.Ok? ==> Grows(s, r.value) && AddsAtMostOne(s, r.value)
    decreases 3, 3
  {
    KeyedEncode(opts, s, key, Str(ConvertBool(opts.boolStrategy, b)))
  }

  /**
    The generic keyed write `encode<T>(_:forKey:)`. An attribute marker becomes
    one attribute and an inline-text marker one text node, without encoding.
    Anything else is encoded by a child encoder; an absent or empty child
    storage writes nothing; a nil optional attribute becomes an attribute
    holding the child's first node's text; otherwise one element named after
    the key wraps the child's attributes and nodes.
   */
  function KeyedEncode(opts: Options, s: Storage, key: Key, v: Value): (r: Result<Storage>)
    ensures r.Ok? ==> Grows(s, r.value) && AddsAtMostOne(s, r.value)
    ensures AsAttribute(v).Some? ==>
      r == Ok(AppendAttr(s, Attr(Render(opts.namespaces, key), AsAttribute(v).value)))
    ensures AsAttribute(v).None? && AsInlineText(v).Some? ==>
      r == Ok(AppendNode(s, Text(AsInlineText(v).value)))
    decreases VSize(v), 2
  {
    match AsAttribute(v)
    case Some(p) => Ok(AppendAttr(s, Attr(Render(opts.namespaces, key), p)))
    case None =>
      match AsInlineText(v)
      case Some(t) => Ok(AppendNode(s, Text(t)))
      case None =>
        var child :- ChildStorage(opts, v);
        match child
        case None => Ok(s)
        case Some(c) =>
          if IsEmpty(c) then Ok(s)
          else if HasOptionalAttributeType(v) && |c.nodes| > 0 then
            Ok(AppendAttr(s, Attr(Render(opts.namespaces, key), StringValue(c.nodes[0]))))
          else
            Ok(AppendNode(s, Element(Render(opts.namespaces, key), c.attributes, c.nodes)))
  }

  function RunUnkeyedOps(opts: Options, ops: seq<UnkeyedOp>, s: Storage): (r: Result<Storage>)
    ensures r.Ok? ==> Grows(s, r.value) && r.value.attributes == s.attributes
    decreases UOpsSize(ops), 5
  {
    if |ops| == 0 then Ok(s)
    else
      var s1 :- UnkeyedStep(opts, s, ops[0]);
      RunUnkeyedOps(opts, ops[1..], s1)
  }

  /** One write through an unkeyed container, dispatched as Swift resolves the overload. */
  function UnkeyedStep(opts: Options, s: Storage, op: UnkeyedOp): (r: Result<Storage>)
    ensures r.Ok? ==> Grows(s, r.value) && r.value.attributes == s.attributes
    decreases UOpSize(op), 4
  {
    match op
    case UNil => UnkeyedNil(opts, s)
    case UBool(b) => UnkeyedBool(opts, s, b)
    case UString(t) => UnkeyedEncode(opts, s, Str(t))
    case UInteger(i) => UnkeyedEncode(opts, s, Integer(i))
    case UDouble(rendered) => UnkeyedEncode(opts, s, Double(rendered))
    case UFloat(rendered) => UnkeyedEncode(opts, s, Float(rendered))
    case UValue(v) => UnkeyedEncode(opts, s, v)
    case UNestedKeyed => Fatal(NestedContainerUnsupported)
    case UNestedUnkeyed => Fatal(NestedContainerUnsupported)
    case USuper => Fatal(SuperEncoderUnsupported)
  }

  /** `encodeNil()` on an unkeyed container. */
  function UnkeyedNil(opts: Options, s: Storage): (r: Result<Storage>)
    ensures opts.nilStrategy != EmptyNil ==> r == Ok(s)
    ensures r.Ok? ==> Grows(s, r.value) && r.value.attributes == s.attributes
    decreases 3, 3
  {
    if opts.nilStrategy == EmptyNil then UnkeyedEncode(opts, s, Str("")) else Ok(s)
  }

  /** `encode(_: Bool)` on an unkeyed container. */
  function UnkeyedBool(opts: Options, s: Storage, b: bool): (r: Result<Storage>)
    ensures r.Ok? ==> Grows(s, r.value) && r.value.attributes == s.attributes
    decreases 3, 3
  {
    UnkeyedEncode(opts, s, Str(ConvertBool(opts.boolStrategy, b)))
  }

  /**
    The generic unkeyed write `encode<T>(_:)`. The member is encoded by a child
    encoder, which must create storage. Its nodes are then spliced inline, or
    wrapped with the child's attributes in one element, as the member's mode says.
   */
  function UnkeyedEncode(opts: Options, s: Storage, v: Value): (r: Result<Storage>)
    ensures r.Ok? ==> Grows(s, r.value) && r.value.attributes == s.attributes
    decreases VSize(v), 2
  {
    var child :- ChildStorage(opts, v);
    match child
    case None => Fatal(StorageNotCreated)
    case Some(c) =>
      match MemberMode(opts, v, c)
      case Inline => Ok(s.(nodes := s.nodes + c.nodes))
      case Keyed(name) => Ok(AppendNode(s, Element(name, c.attributes, c.nodes)))
  }

  /** Encode `v` with a fresh encoder and read its storage out as the element `name`. */
  function EncodeDocument(opts: Options, v: Value, name: string): (r: Result<Node>)
    ensures r.Ok? ==> r.value.Element? && r.value.name == name
  {
    var st :- EncodeTo(opts, v, None);
    Ok(TopElement(name, st))
  }
}
