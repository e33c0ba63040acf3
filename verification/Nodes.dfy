/**
  The XML node model the encoder builds, and the storage an encoder owns.
 */
module Nodes {

  /** An attribute node: a name and its string value. */
  datatype Attr = Attr(name: string, value: string)

  /** An element (name, attributes in insertion order, children in order) or a text node. */
  datatype Node =
    | Element(name: string, attributes: seq<Attr>, children: seq<Node>)
    | Text(value: string)

  /** How a sequence member is placed: its nodes spliced inline, or wrapped in one named element. */
  datatype ElementMode = Inline | Keyed(name: string)

  /** The three storage classes an encoder can own. */
  datatype StorageKind = KeyedStorage | UnkeyedStorage | SingleValueStorage

  /** An encoder's top-level storage: the nodes and attributes written into it so far. */
  datatype Storage = Storage(kind: StorageKind, nodes: seq<Node>, attributes: seq<Attr>)

  /** The text content of a node, `XMLNode.stringValue`: all descendant text in document order. */
  function StringValue(n: Node): string
  {
    match n
    case Text(t) => t
    case Element(_, _, children) => ChildrenStringValue(children)
  }

  function ChildrenStringValue(ns: seq<Node>): string
  {
    if |ns| == 0 then "" else StringValue(ns[0]) + ChildrenStringValue(ns[1..])
  }

  /** `later` extends `earlier`: same kind, and both lists only had items appended. */
  predicate Grows(earlier: Storage, later: Storage)
  {
    && later.kind == earlier.kind
    && earlier.nodes <= later.nodes
    && earlier.attributes <= later.attributes
  }

  /** True when nothing has been written into the storage. */
  predicate IsEmpty(s: Storage)
  {
    s.nodes == [] && s.attributes == []
  }

  function AppendNode(s: Storage, n: Node): Storage
  {
    s.(nodes := s.nodes + [n])
  }

  function AppendAttr(s: Storage, a: Attr): Storage
  {
    s.(attributes := s.attributes + [a])
  }
}
