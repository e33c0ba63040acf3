/**
  The earlier tree-building encoder of `_XMLEncoder.swift`, kept apart from the
  one in `XMLEncoderInternal.swift`: it has no configuration besides the
  namespace provider and no leaf conversions. Strings and integers are written
  directly; nil, `Bool`, `Double` and `Float` writes are fatal in every
  container; a keyed generic write always emits an element; a sequence member is
  its child's first element, or everything the child wrote wrapped in an
  element named `element`.

  Container acquisition and `topElement` behave exactly as in the later
  variant and are shared with it.
 */
module LegacyEncoder {

  import opened Results
  import opened Nodes
  import opened Keys
  import opened Values
  import opened EncoderStorage
  import Decimal

  /** The element name every sequence member is wrapped in. */
  const MemberName: string := "element"

  /** The text node an element built with `stringValue:` holds. */
  function TextElement(name: string, t: string): (n: Node)
    ensures n.Element? && n.name == name && n.attributes == []
    ensures n.children == [Text(t)]
  {
    Element(name, [], [Text(t)])
  }

  /** The storage's nodes, or none when no storage exists. */
  function NodesOf(st: Option<Storage>): seq<Node>
  {
    if st.Some? then st.value.nodes else []
  }

  /** The storage's attributes, or none when no storage exists. */
  function AttributesOf(st: Option<Storage>): seq<Attr>
  {
    if st.Some? then st.value.attributes else []
  }

  // ---------------------------------------------------------------------------
  // Single-value container

  /** `encode(_: String)` on a single-value container. */
  function SingleString(s: Storage, t: string): (r: Storage)
    ensures r.kind == s.kind && r.attributes == s.attributes
    ensures r.nodes == s.nodes + [Text(t)]
  {
    AppendNode(s, Text(t))
  }

  /** One write into a single-value container: strings and integers become text; everything else is fatal. */
  function SingleStep(s: Storage, op: SingleOp): (r: Result<Storage>)
    ensures r.Ok? <==> op.SString? || op.SInteger?
    ensures op.SValue? ==> r == Fatal(GenericSingleValueWrite)
    ensures r.Fatal? && !op.SValue? ==> r.error == PrimitiveWriteUnsupported
    ensures r.Ok? ==> r.value.kind == s.kind && r.value.attributes == s.attributes
    ensures r.Ok? ==> |r.value.nodes| == |s.nodes| + 1 && r.value.nodes[..|s.nodes|] == s.nodes
    ensures op.SString? ==> r == Ok(AppendNode(s, Text(op.s)))
    ensures op.SInteger? ==> r == Ok(AppendNode(s, Text(Decimal.Show(op.i))))
  {
    match op
    case SString(t) => Ok(SingleString(s, t))
    case SInteger(i) => Ok(SingleString(s, Decimal.Show(i)))
    case SValue(_) => Fatal(GenericSingleValueWrite)
    case _ => Fatal(PrimitiveWriteUnsupported)
  }

  /** All ops must be strings or integers; each then appends exactly one text node. */
  function RunSingleOps(ops: seq<SingleOp>, s: Storage): (r: Result<Storage>)
    ensures r.Ok? <==> forall i :: 0 <= i < |ops| ==> ops[i].SString? || ops[i].SInteger?
    ensures r.Ok? ==> Grows(s, r.value) && r.value.attributes == s.attributes
    ensures r.Ok? ==> |r.value.nodes| == |s.nodes| + |ops|
    ensures r.Ok? ==> forall i :: |s.nodes| <= i < |r.value.nodes| ==> r.value.nodes[i].Text?
    decreases |ops|
  {
    if |ops| == 0 then Ok(s)
    else
      var s1 :- SingleStep(s, ops[0]);
      var r := RunSingleOps(ops[1..], s1);
      assert r.Ok? ==> forall i :: 0 <= i < |ops| ==> ops[i].SString? || ops[i].SInteger? by {
        if r.Ok? {
          forall i | 0 <= i < |ops|
            ensures ops[i].SString? || ops[i].SInteger?
          {
            if i > 0 {
              assert ops[1..][i - 1] == ops[i];
            }
          }
        }
      }
      assert r.Fatal? ==> exists i :: 0 <= i < |ops| && !(ops[i].SString? || ops[i].SInteger?) by {
        if r.Fatal? {
          var j :| 0 <= j < |ops[1..]| && !(ops[1..][j].SString? || ops[1..][j].SInteger?);
          assert ops[j + 1] == ops[1..][j];
        }
      }
      r
  }

  // ---------------------------------------------------------------------------
  // Encoding a value, and the keyed and unkeyed containers

  /** The host calling `v.encode(to:)` on an encoder whose storage is `st`. */
  function EncodeTo(ns: map<string, string>, v: Value, st: Option<Storage>): (r: Result<Option<Storage>>)
    ensures r.Ok? && st.Some? ==> r.value.Some? && Grows(st.value, r.value.value)
    decreases VSize(v), 0
  {
    HostSessionsSmaller(v);
    RunSessions(ns, HostSessions(v), st)
  }

  /** A fresh child encoder after encoding `v`. */
  function ChildStorage(ns: map<string, string>, v: Value): (r: Result<Option<Storage>>)
    decreases VSize(v), 1
  {
    EncodeTo(ns, v, None)
  }

  function RunSessions(ns: map<string, string>, ss: seq<Session>, st: Option<Storage>): (r: Result<Option<Storage>>)
    ensures r.Ok? && st.Some? ==> r.value.Some? && Grows(st.value, r.value.value)
    ensures r.Ok? && |ss| > 0 ==> r.value.Some?
    decreases SessionsSize(ss), 7
  {
    if |ss| == 0 then Ok(st)
    else
      var s :- RunSession(ns, ss[0], st);
      RunSessions(ns, ss[1..], Some(s))
  }

  /** Acquire the session's container, then issue its writes through it. */
  function RunSession(ns: map<string, string>, session: Session, st: Option<Storage>): (r: Result<Storage>)
    ensures r.Ok? && st.Some? ==> Grows(st.value, r.value)
    decreases SessionSize(session), 6
  {
    match session
    case KeyedSession(ops) =>
      var s :- AcquireKeyed(st);
      RunKeyedOps(ns, ops, s)
    case UnkeyedSession(ops) =>
      var s :- AcquireUnkeyed(st);
      RunUnkeyedOps(ns, ops, s)
    case SingleSession(ops) =>
      var s :- AcquireSingle(st);
      RunSingleOps(ops, s)
  }

  /** `encode(_: String, forKey:)`: one element named after the key, holding the string. */
  function KeyedString(ns: map<string, string>, s: Storage, key: Key, t: string): (r: Storage)
    ensures r.kind == s.kind && r.attributes == s.attributes
    ensures r.nodes == s.nodes + [TextElement(Render(ns, key), t)]
  {
    AppendNode(s, TextElement(Render(ns, key), t))
  }

  /** Every successful keyed write adds exactly one node or one attribute. */
  function RunKeyedOps(ns: map<string, string>, ops: seq<KeyedOp>, s: Storage): (r: Result<Storage>)
    ensures r.Ok? ==> Grows(s, r.value)
    ensures r.Ok? ==> |r.value.nodes| + |r.value.attributes| == |s.nodes| + |s.attributes| + |ops|
    decreases KOpsSize(ops), 5
  {
    if |ops| == 0 then Ok(s)
    else
      var s1 :- KeyedStep(ns, s, ops[0]);
      RunKeyedOps(ns, ops[1..], s1)
  }

  /** One write through a keyed container, dispatched as Swift resolves the overload. */
  function KeyedStep(ns: map<string, string>, s: Storage, op: KeyedOp): (r: Result<Storage>)
    ensures r.Ok? ==> Grows(s, r.value)
    ensures r.Ok? ==> |r.value.nodes| + |r.value.attributes| == |s.nodes| + |s.attributes| + 1
    ensures r.Fatal? <==> !(op.KString? || op.KInteger? || op.KValue?) || (op.KValue? && KeyedEncode(ns, s, op.key, op.value).Fatal?)
    decreases KOpSize(op), 4
  {
    match op
    case KString(k, t) => Ok(KeyedString(ns, s, k, t))
    case KInteger(k, i) => Ok(KeyedString(ns, s, k, Decimal.Show(i)))
    case KValue(k, v) => KeyedEncode(ns, s, k, v)
    case KNil(_) => Fatal(PrimitiveWriteUnsupported)
    case KBool(_, _) => Fatal(PrimitiveWriteUnsupported)
    case KDouble(_, _) => Fatal(PrimitiveWriteUnsupported)
    case KFloat(_, _) => Fatal(PrimitiveWriteUnsupported)
    case KNestedKeyed(_) => Fatal(NestedContainerUnsupported)
    case KNestedUnkeyed(_) => Fatal(NestedContainerUnsupported)
    case KSuper(_) => Fatal(SuperEncoderUnsupported)
  }

  /**
    The generic keyed write: the attribute and inline-text markers as in the
    later variant; anything else is encoded by a child encoder and always
    becomes one element named after the key, empty when the child wrote nothing.
   */
  function KeyedEncode(ns: map<string, string>, s: Storage, key: Key, v: Value): (r: Result<Storage>)
    ensures r.Ok? ==> Grows(s, r.value)
    ensures r.Ok? ==> |r.value.nodes| + |r.value.attributes| == |s.nodes| + |s.attributes| + 1
    ensures AsAttribute(v).Some? ==> r == Ok(AppendAttr(s, Attr(Render(ns, key), AsAttribute(v).value)))
    ensures AsAttribute(v).None? && AsInlineText(v).Some? ==> r == Ok(AppendNode(s, Text(AsInlineText(v).value)))
    decreases VSize(v), 2
  {
    match AsAttribute(v)
    case Some(p) => Ok(AppendAttr(s, Attr(Render(ns, key), p)))
    case None =>
      match AsInlineText(v)
      case Some(t) => Ok(AppendNode(s, Text(t)))
      case None =>
        var child :- ChildStorage(ns, v);
        Ok(AppendNode(s, Element(Render(ns, key), AttributesOf(child), NodesOf(child))))
  }

  /** `encode(_: String)` on an unkeyed container: one element named `element`, holding the string. */
  function UnkeyedString(s: Storage, t: string): (r: Storage)
    ensures r.kind == s.kind && r.attributes == s.attributes
    ensures r.nodes == s.nodes + [TextElement(MemberName, t)]
  {
    AppendNode(s, TextElement(MemberName, t))
  }

  /** Every successful unkeyed write appends exactly one element. */
  function RunUnkeyedOps(ns: map<string, string>, ops: seq<UnkeyedOp>, s: Storage): (r: Result<Storage>)
    ensures r.Ok? ==> Grows(s, r.value) && r.value.attributes == s.attributes
    ensures r.Ok? ==> |r.value.nodes| == |s.nodes| + |ops|
    ensures r.Ok? ==> forall i :: |s.nodes| <= i < |r.value.nodes| ==> r.value.nodes[i].Element?
    decreases UOpsSize(ops), 5
  {
    if |ops| == 0 then Ok(s)
    else
      var s1 :- UnkeyedStep(ns, s, ops[0]);
      RunUnkeyedOps(ns, ops[1..], s1)
  }

  /** One write through an unkeyed container, dispatched as Swift resolves the overload. */
  function UnkeyedStep(ns: map<string, string>, s: Storage, op: UnkeyedOp): (r: Result<Storage>)
    ensures r.Ok? ==> r.value.kind == s.kind && r.value.attributes == s.attributes
    ensures r.Ok? ==> |r.value.nodes| == |s.nodes| + 1 && r.value.nodes[..|s.nodes|] == s.nodes
    ensures r.Ok? ==> r.value.nodes[|s.nodes|].Element?
    ensures r.Fatal? <==> !(op.UString? || op.UInteger? || op.UValue?) || (op.UValue? && UnkeyedEncode(ns, s, op.value).Fatal?)
    decreases UOpSize(op), 4
  {
    match op
    case UString(t) => Ok(UnkeyedString(s, t))
    case UInteger(i) => Ok(UnkeyedString(s, Decimal.Show(i)))
    case UValue(v) => UnkeyedEncode(ns, s, v)
    case UNil => Fatal(PrimitiveWriteUnsupported)
    case UBool(_) => Fatal(PrimitiveWriteUnsupported)
    case UDouble(_) => Fatal(PrimitiveWriteUnsupported)
    case UFloat(_) => Fatal(PrimitiveWriteUnsupported)
    case UNestedKeyed => Fatal(NestedContainerUnsupported)
    case UNestedUnkeyed => Fatal(NestedContainerUnsupported)
    case USuper => Fatal(SuperEncoderUnsupported)
  }

  /**
    The generic unkeyed write: the member is encoded by a child encoder; when
    the child's first node is an element, that element alone is appended,
    otherwise everything the child wrote is wrapped in one `element` element.
   */
  function UnkeyedEncode(ns: map<string, string>, s: Storage, v: Value): (r: Result<Storage>)
    ensures r.Ok? ==> r.value.kind == s.kind && r.value.attributes == s.attributes
    ensures r.Ok? ==> |r.value.nodes| == |s.nodes| + 1 && r.value.nodes[..|s.nodes|] == s.nodes
    ensures r.Ok? ==> r.value.nodes[|s.nodes|].Element?
    decreases VSize(v), 2
  {
    var child :- ChildStorage(ns, v);
    var nodes := NodesOf(child);
    if |nodes| > 0 && nodes[0].Element? then Ok(AppendNode(s, nodes[0]))
    else Ok(AppendNode(s, Element(MemberName, AttributesOf(child), nodes)))
  }

  /** Encode `v` with a fresh encoder and read its storage out as the element `name`. */
  function EncodeDocument(ns: map<string, string>, v: Value, name: string): (r: Result<Node>)
    ensures r.Ok? ==> r.value.Element? && r.value.name == name
  {
    var st :- EncodeTo(ns, v, None);
    Ok(TopElement(name, st))
  }
}
