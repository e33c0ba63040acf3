/**
  Whole documents built by the tree-building encoder of
  `XMLEncoderInternal.swift` for small records, stated node for node. Each
  record is written as the `encode(to:)` its synthesized conformance performs:
  one keyed container and one write per field, in declaration order.
 */
module EncoderExamples {

  import opened Results
  import opened Nodes
  import opened Keys
  import opened Values
  import opened EncoderStorage
  import opened Conversions
  import opened Encoder
  import opened EncoderProperties
  import Decimal

  /** The document of a record: its keyed writes run on empty keyed storage, under the root element. */
  lemma RecordDocument(opts: Options, ops: seq<KeyedOp>, name: string, s: Storage)
    requires RunKeyedOps(opts, ops, Fresh(KeyedStorage)) == Ok(s)
    ensures EncodeDocument(opts, Custom([KeyedSession(ops)], None), name) == Ok(Element(name, s.attributes, s.nodes))
  {
    OneSession(opts, KeyedSession(ops), None);
  }

  /** Keyed writes continue from the storage the earlier writes built. */
  lemma KeyedWritesThen(opts: Options, a: seq<KeyedOp>, b: KeyedOp, s: Storage, s1: Storage)
    requires RunKeyedOps(opts, a, s) == Ok(s1)
    ensures RunKeyedOps(opts, a + [b], s) == KeyedStep(opts, s1, b)
  {
    RunKeyedOpsAppend(opts, a, [b], s);
    OneKeyedWrite(opts, b, s1);
  }

  /** Unkeyed writes continue from the storage the earlier writes built. */
  lemma UnkeyedWritesThen(opts: Options, a: seq<UnkeyedOp>, b: UnkeyedOp, s: Storage, s1: Storage)
    requires RunUnkeyedOps(opts, a, s) == Ok(s1)
    ensures RunUnkeyedOps(opts, a + [b], s) == UnkeyedStep(opts, s1, b)
  {
    RunUnkeyedOpsAppend(opts, a, [b], s);
    OneUnkeyedWrite(opts, b, s1);
  }

  lemma FortyTwo()
    ensures Decimal.Show(42) == "42"
  {
    assert Decimal.ShowNat(4) == "4";
  }

  /** `{a: 42, b: "x"}` becomes `<root><a>42</a><b>x</b></root>`, whatever the configuration. */
  lemma RecordExample(opts: Options)
    ensures EncodeDocument(opts, Custom([KeyedSession([KInteger(Plain("a"), 42), KString(Plain("b"), "x")])], None), "root")
      == Ok(Element("root", [], [Element("a", [], [Text("42")]), Element("b", [], [Text("x")])]))
  {
    var a := KInteger(Plain("a"), 42);
    var b := KString(Plain("b"), "x");
    var s0 := Fresh(KeyedStorage);
    FortyTwo();
    KeyedIntegerWrite(opts, s0, Plain("a"), 42);
    var s1 := AppendNode(s0, Element("a", [], [Text("42")]));
    OneKeyedWrite(opts, a, s0);
    KeyedStringWrite(opts, s1, Plain("b"), "x");
    var s2 := AppendNode(s1, Element("b", [], [Text("x")]));
    KeyedWritesThen(opts, [a], b, s0, s1);
    assert [a] + [b] == [a, b];
    assert s2.nodes == [Element("a", [], [Text("42")]), Element("b", [], [Text("x")])];
    RecordDocument(opts, [a, b], "root", s2);
  }

  /** Each integer member of a sequence lands in an `element` element when single-value storage reports that mode. */
  lemma IntegerMember(opts: Options, u: Storage, i: int)
    requires opts.storageModes.singleValue == Keyed("element")
    ensures UnkeyedStep(opts, u, UValue(Integer(i))) == Ok(AppendNode(u, Element("element", [], [Text(Decimal.Show(i))])))
  {
    IntegerChild(opts, i);
  }

  /** Three integer members, each in its own `element` element. */
  lemma ThreeMembers(opts: Options, i: int, j: int, k: int)
    requires opts.storageModes.singleValue == Keyed("element")
    ensures RunUnkeyedOps(opts, [UValue(Integer(i)), UValue(Integer(j)), UValue(Integer(k))], Fresh(UnkeyedStorage))
      == Ok(Storage(UnkeyedStorage, [
           Element("element", [], [Text(Decimal.Show(i))]),
           Element("element", [], [Text(Decimal.Show(j))]),
           Element("element", [], [Text(Decimal.Show(k))])], []))
  {
    var o1, o2, o3 := UValue(Integer(i)), UValue(Integer(j)), UValue(Integer(k));
    var u0 := Fresh(UnkeyedStorage);
    var u1 := AppendNode(u0, Element("element", [], [Text(Decimal.Show(i))]));
    var u2 := AppendNode(u1, Element("element", [], [Text(Decimal.Show(j))]));
    var u3 := AppendNode(u2, Element("element", [], [Text(Decimal.Show(k))]));
    IntegerMember(opts, u0, i);
    OneUnkeyedWrite(opts, o1, u0);
    IntegerMember(opts, u1, j);
    UnkeyedWritesThen(opts, [o1], o2, u0, u1);
    assert [o1] + [o2] == [o1, o2];
    IntegerMember(opts, u2, k);
    UnkeyedWritesThen(opts, [o1, o2], o3, u0, u2);
    assert [o1, o2] + [o3] == [o1, o2, o3];
    assert u3.nodes == [
      Element("element", [], [Text(Decimal.Show(i))]),
      Element("element", [], [Text(Decimal.Show(j))]),
      Element("element", [], [Text(Decimal.Show(k))])];
  }

  /** A record holding one sequence of three integers. */
  lemma SequenceWrapping(opts: Options, key: string, i: int, j: int, k: int)
    requires opts.storageModes.singleValue == Keyed("element")
    ensures var xs := Custom([UnkeyedSession([UValue(Integer(i)), UValue(Integer(j)), UValue(Integer(k))])], None);
      EncodeDocument(opts, Custom([KeyedSession([KValue(Plain(key), xs)])], None), "root")
      == Ok(Element("root", [], [Element(key, [], [
           Element("element", [], [Text(Decimal.Show(i))]),
           Element("element", [], [Text(Decimal.Show(j))]),
           Element("element", [], [Text(Decimal.Show(k))])])]))
  {
    var ops := [UValue(Integer(i)), UValue(Integer(j)), UValue(Integer(k))];
    var xs := Custom([UnkeyedSession(ops)], None);
    var u3 := Storage(UnkeyedStorage, [
      Element("element", [], [Text(Decimal.Show(i))]),
      Element("element", [], [Text(Decimal.Show(j))]),
      Element("element", [], [Text(Decimal.Show(k))])], []);
    ThreeMembers(opts, i, j, k);
    UnkeyedValueChild(opts, ops, None);
    var s0 := Fresh(KeyedStorage);
    DefaultKeyedPath(opts, s0, Plain(key), xs, u3);
    var w := KValue(Plain(key), xs);
    OneKeyedWrite(opts, w, s0);
    var s1 := AppendNode(s0, Element(key, [], u3.nodes));
    assert s1.nodes == [Element(key, [], u3.nodes)];
    RecordDocument(opts, [w], "root", s1);
  }

  /**
    `{xs: [1, 2, 3]}` places each member in an `element` element when
    single-value storage reports the keyed mode `element`.
   */
  lemma SequenceWrappingExample(opts: Options)
    requires opts.storageModes.singleValue == Keyed("element")
    ensures var xs := Custom([UnkeyedSession([UValue(Integer(1)), UValue(Integer(2)), UValue(Integer(3))])], None);
      EncodeDocument(opts, Custom([KeyedSession([KValue(Plain("xs"), xs)])], None), "root")
      == Ok(Element("root", [], [Element("xs", [], [
           Element("element", [], [Text("1")]),
           Element("element", [], [Text("2")]),
           Element("element", [], [Text("3")])])]))
  {
    assert Decimal.Show(1) == "1" && Decimal.Show(2) == "2" && Decimal.Show(3) == "3";
    SequenceWrapping(opts, "xs", 1, 2, 3);
  }

  /** The fields of a record with an element, an attribute, inline text and a number, in that order. */
  lemma MixedFields(opts: Options, ke: string, e: string, ka: string, at: string, kt: string, t: string, kn: string, n: int)
    ensures RunKeyedOps(opts, [
        KValue(Plain(ke), Str(e)),
        KValue(Plain(ka), Attribute(at)),
        KValue(Plain(kt), InlineText(t)),
        KValue(Plain(kn), Integer(n))], Fresh(KeyedStorage))
      == Ok(Storage(KeyedStorage, [
           Element(ke, [], [Text(e)]),
           Text(t),
           Element(kn, [], [Text(Decimal.Show(n))])], [Attr(ka, at)]))
  {
    var o1 := KValue(Plain(ke), Str(e));
    var o2 := KValue(Plain(ka), Attribute(at));
    var o3 := KValue(Plain(kt), InlineText(t));
    var o4 := KValue(Plain(kn), Integer(n));
    var c0 := Fresh(KeyedStorage);
    var c1 := AppendNode(c0, Element(ke, [], [Text(e)]));
    KeyedStringWrite(opts, c0, Plain(ke), e);
    assert KeyedStep(opts, c0, o1) == Ok(c1);
    OneKeyedWrite(opts, o1, c0);
    var c2 := AppendAttr(c1, Attr(ka, at));
    assert KeyedStep(opts, c1, o2) == Ok(c2);
    KeyedWritesThen(opts, [o1], o2, c0, c1);
    assert [o1] + [o2] == [o1, o2];
    var c3 := AppendNode(c2, Text(t));
    assert KeyedStep(opts, c2, o3) == Ok(c3);
    KeyedWritesThen(opts, [o1, o2], o3, c0, c2);
    assert [o1, o2] + [o3] == [o1, o2, o3];
    var c4 := AppendNode(c3, Element(kn, [], [Text(Decimal.Show(n))]));
    KeyedIntegerWrite(opts, c3, Plain(kn), n);
    assert KeyedStep(opts, c3, o4) == Ok(c4);
    KeyedWritesThen(opts, [o1, o2, o3], o4, c0, c3);
    assert [o1, o2, o3] + [o4] == [o1, o2, o3, o4];
    assert c4.nodes == [Element(ke, [], [Text(e)]), Text(t), Element(kn, [], [Text(Decimal.Show(n))])];
    assert c4.attributes == [Attr(ka, at)];
  }

  /** A record holding a nested mixed record and an attribute of its own. */
  lemma NestedAttributes(opts: Options, kc: string, ops: seq<KeyedOp>, c: Storage, ktop: string, top: string)
    requires RunKeyedOps(opts, ops, Fresh(KeyedStorage)) == Ok(c) && !IsEmpty(c)
    ensures EncodeDocument(opts, Custom([KeyedSession([
          KValue(Plain(kc), Custom([KeyedSession(ops)], None)),
          KValue(Plain(ktop), Attribute(top))])], None), "root")
      == Ok(Element("root", [Attr(ktop, top)], [Element(kc, c.attributes, c.nodes)]))
  {
    var container := Custom([KeyedSession(ops)], None);
    KeyedValueChild(opts, ops, None);
    var a := KValue(Plain(kc), container);
    var b := KValue(Plain(ktop), Attribute(top));
    var s0 := Fresh(KeyedStorage);
    DefaultKeyedPath(opts, s0, Plain(kc), container, c);
    var s1 := AppendNode(s0, Element(kc, c.attributes, c.nodes));
    OneKeyedWrite(opts, a, s0);
    var s2 := AppendAttr(s1, Attr(ktop, top));
    assert KeyedStep(opts, s1, b) == Ok(s2);
    KeyedWritesThen(opts, [a], b, s0, s1);
    assert [a] + [b] == [a, b];
    assert s2.nodes == [Element(kc, c.attributes, c.nodes)];
    assert s2.attributes == [Attr(ktop, top)];
    RecordDocument(opts, [a, b], "root", s2);
  }

  /**
    Attribute and inline-text fields: the attribute lands on the enclosing
    element, the inline text among its children, in field order.
   */
  lemma AttributesExample(opts: Options)
    ensures var container := Custom([KeyedSession([
          KValue(Plain("element"), Str("elem")),
          KValue(Plain("attribute"), Attribute("attr")),
          KValue(Plain("inlineText"), InlineText("text")),
          KValue(Plain("number"), Integer(42))])], None);
      EncodeDocument(opts, Custom([KeyedSession([
          KValue(Plain("container"), container),
          KValue(Plain("top_attribute"), Attribute("top"))])], None), "root")
      == Ok(Element("root", [Attr("top_attribute", "top")], [
           Element("container", [Attr("attribute", "attr")], [
             Element("element", [], [Text("elem")]),
             Text("text"),
             Element("number", [], [Text("42")])])]))
  {
    FortyTwo();
    MixedFields(opts, "element", "elem", "attribute", "attr", "inlineText", "text", "number", 42);
    NestedAttributes(opts, "container", [
        KValue(Plain("element"), Str("elem")),
        KValue(Plain("attribute"), Attribute("attr")),
        KValue(Plain("inlineText"), InlineText("text")),
        KValue(Plain("number"), Integer(42))],
      Storage(KeyedStorage, [
        Element("element", [], [Text("elem")]),
        Text("text"),
        Element("number", [], [Text("42")])], [Attr("attribute", "attr")]),
      "top_attribute", "top");
  }

  /** A record of two string fields. */
  lemma TwoStrings(opts: Options, k1: Key, t1: string, k2: Key, t2: string)
    ensures EncodeDocument(opts, Custom([KeyedSession([KString(k1, t1), KString(k2, t2)])], None), "root")
      == Ok(Element("root", [], [
           Element(Render(opts.namespaces, k1), [], [Text(t1)]),
           Element(Render(opts.namespaces, k2), [], [Text(t2)])]))
  {
    var a, b := KString(k1, t1), KString(k2, t2);
    var s0 := Fresh(KeyedStorage);
    KeyedStringWrite(opts, s0, k1, t1);
    var s1 := AppendNode(s0, Element(Render(opts.namespaces, k1), [], [Text(t1)]));
    OneKeyedWrite(opts, a, s0);
    KeyedStringWrite(opts, s1, k2, t2);
    var s2 := AppendNode(s1, Element(Render(opts.namespaces, k2), [], [Text(t2)]));
    KeyedWritesThen(opts, [a], b, s0, s1);
    assert [a] + [b] == [a, b];
    assert s2.nodes == [Element(Render(opts.namespaces, k1), [], [Text(t1)]), Element(Render(opts.namespaces, k2), [], [Text(t2)])];
    RecordDocument(opts, [a, b], "root", s2);
  }

  /**
    A key in a registered namespace is written with that namespace's prefix;
    a key with no namespace is written as it is.
   */
  lemma NamespacesExample(opts: Options)
    requires opts.namespaces == map["http://some.url.example.com/whatever" := "ns1"]
    ensures EncodeDocument(opts, Custom([KeyedSession([
        KString(Key("with_namespace", Some("http://some.url.example.com/whatever")), "test1"),
        KString(Plain("without_namespace"), "test2")])], None), "root")
      == Ok(Element("root", [], [
           Element("ns1:with_namespace", [], [Text("test1")]),
           Element("without_namespace", [], [Text("test2")])]))
  {
    var k1 := Key("with_namespace", Some("http://some.url.example.com/whatever"));
    assert Registered(opts.namespaces, k1);
    assert Render(opts.namespaces, k1) == "ns1:with_namespace";
    TwoStrings(opts, k1, "test1", Plain("without_namespace"), "test2");
  }

  /** A custom Bool strategy writes its own strings. */
  lemma BoolStrategyExample(opts: Options, s: Storage)
    requires opts.boolStrategy == BoolStrategy("no", "yes")
    ensures KeyedStep(opts, s, KBool(Plain("flag"), true)) == Ok(AppendNode(s, Element(Render(opts.namespaces, Plain("flag")), [], [Text("yes")])))
    ensures KeyedStep(opts, s, KBool(Plain("flag"), false)) == Ok(AppendNode(s, Element(Render(opts.namespaces, Plain("flag")), [], [Text("no")])))
  {
    KeyedBoolWrite(opts, s, Plain("flag"), true);
    KeyedBoolWrite(opts, s, Plain("flag"), false);
  }
}
