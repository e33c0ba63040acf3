/**
  The values the host traversal hands to the encoder, and what each value's own
  `encode(to:)` does with an encoder.

  Swift's `Encodable` protocol has a value drive the encoder: it acquires one
  container (keyed, unkeyed or single-value) and issues typed writes against it.
  Here that conversation is data: a value's `HostSessions` is the list of
  container acquisitions it performs, each with the writes issued through that
  container, in order. `Custom` is any user type (a struct, an array, a class
  whose `encode(to:)` calls `super` first and then acquires again); the other
  constructors are the standard and Foundation types whose `encode(to:)` the
  encoder meets, with that behaviour written out in `HostSessions`.

  Which overload a write uses is decided statically in Swift, so typed writes
  (`KString`, `KInteger`, ...) are kept apart from the generic write `KValue`.
 */
module Values {

  import opened Results
  import opened Nodes
  import opened Keys
  import Base64

  datatype Value =
    | Str(s: string)
    | Integer(i: int)                          // every integer width; the width only bounds the range
    | Boolean(b: bool)
    | Double(rendered: Option<string>)         // the decimal formatter's output, if any
    | Float(rendered: Option<string>)
    | Bytes(data: seq<Base64.byte>)            // Foundation `Data`
    | Date(formatted: string, interval: Option<string>)  // date-formatter output; rendered seconds since the reference date
    | Url(absolute: string)                    // a URL with no base URL
    | Attribute(payload: string)               // a `CodableXMLAttribute`
    | InlineText(payload: string)              // a `CodableXMLInlineText`
    | NilAttribute                             // `nil` whose static type is `Optional<CodableXMLAttribute>`
    | Optional(wrapped: Option<Value>)         // any other `Optional`
    | Custom(sessions: seq<Session>, mode: Option<ElementMode>)  // mode: an `XMLCustomElementMode` conformance

  datatype KeyedOp =
    | KNil(key: Key)
    | KBool(key: Key, b: bool)
    | KString(key: Key, s: string)
    | KInteger(key: Key, i: int)
    | KDouble(key: Key, rendered: Option<string>)
    | KFloat(key: Key, rendered: Option<string>)
    | KValue(key: Key, value: Value)           // the generic `encode<T>(_:forKey:)`
    | KNestedKeyed(key: Key)
    | KNestedUnkeyed(key: Key)
    | KSuper(superKey: Option<Key>)

  datatype UnkeyedOp =
    | UNil
    | UBool(b: bool)
    | UString(s: string)
    | UInteger(i: int)
    | UDouble(rendered: Option<string>)
    | UFloat(rendered: Option<string>)
    | UValue(value: Value)                     // the generic `encode<T>(_:)`
    | UNestedKeyed
    | UNestedUnkeyed
    | USuper

  datatype SingleOp =
    | SNil
    | SBool(b: bool)
    | SString(s: string)
    | SInteger(i: int)
    | SDouble(rendered: Option<string>)
    | SFloat(rendered: Option<string>)
    | SValue(value: Value)                     // the generic `encode<T>(_:)`

  /** One container acquisition followed by the writes issued through it. */
  datatype Session =
    | KeyedSession(kops: seq<KeyedOp>)
    | UnkeyedSession(uops: seq<UnkeyedOp>)
    | SingleSession(sops: seq<SingleOp>)

  /** Foundation's `Data.encode(to:)`: an unkeyed container, one `UInt8` write per byte. */
  function ByteOps(data: seq<Base64.byte>): (ops: seq<UnkeyedOp>)
    ensures |ops| == |data|
    ensures forall i :: 0 <= i < |data| ==> ops[i] == UInteger(data[i])
    decreases |data|
  {
    if |data| == 0 then [] else [UInteger(data[0])] + ByteOps(data[1..])
  }

  /**
    The calls a value's `encode(to:)` makes on the encoder it is given.
    The standard library's `Optional.encode(to:)` takes a single-value container
    and writes `nil`, or hands the wrapped value to the container's generic
    `encode<T>`, since `Wrapped` is only known as a type parameter there.
   */
  function HostSessions(v: Value): (ss: seq<Session>)
    ensures !v.Custom? ==> |ss| == 1
    ensures v.Custom? ==> ss == v.sessions
    ensures v.Optional? && v.wrapped.None? ==> ss == [SingleSession([SNil])]
    ensures v.Optional? && v.wrapped.Some? ==> ss == [SingleSession([SValue(v.wrapped.value)])]
    ensures !v.Custom? && !v.Bytes? && !v.Url? ==> ss[0].SingleSession? && |ss[0].sops| == 1
    ensures !v.Custom? ==> forall i :: 0 <= i < |ss| ==> (IssuesGenericWrite(ss[i]) <==> v.Optional? && v.wrapped.Some?)
  {
    match v
    case Str(s) => [SingleSession([SString(s)])]
    case Integer(i) => [SingleSession([SInteger(i)])]
    case Boolean(b) => [SingleSession([SBool(b)])]
    case Double(r) => [SingleSession([SDouble(r)])]
    case Float(r) => [SingleSession([SFloat(r)])]
    case Bytes(data) => [UnkeyedSession(ByteOps(data))]
    case Date(_, interval) => [SingleSession([SDouble(interval)])]
    case Url(absolute) => [KeyedSession([KString(Plain("relative"), absolute)])]
    case Attribute(p) => [SingleSession([SString(p)])]
    case InlineText(p) => [SingleSession([SString(p)])]
    case NilAttribute => [SingleSession([SNil])]
    case Optional(None) => [SingleSession([SNil])]
    case Optional(Some(w)) =>
      var ops := [SValue(w)];
      assert ops[0].SValue?;
      [SingleSession(ops)]
    case Custom(ss, _) => ss
  }

  /** Whether a session hands a value to one of the generic `encode<T>` writes. */
  predicate IssuesGenericWrite(s: Session)
  {
    match s
    case KeyedSession(ops) => exists i :: 0 <= i < |ops| && ops[i].KValue?
    case UnkeyedSession(ops) => exists i :: 0 <= i < |ops| && ops[i].UValue?
    case SingleSession(ops) => exists i :: 0 <= i < |ops| && ops[i].SValue?
  }

  /** The value inside any number of non-nil `Optional` wrappers. */
  function Unwrapped(v: Value): (u: Value)
    ensures !(u.Optional? && u.wrapped.Some?)
    ensures !(v.Optional? && v.wrapped.Some?) ==> u == v
  {
    match v
    case Optional(Some(w)) => Unwrapped(w)
    case _ => v
  }

  /** `value as? CodableXMLAttribute`: the cast looks through `Optional` wrappers. */
  function AsAttribute(v: Value): (r: Option<string>)
    ensures r.Some? <==> Unwrapped(v).Attribute?
    ensures r.Some? ==> r.value == Unwrapped(v).payload
  {
    match v
    case Attribute(p) => Some(p)
    case Optional(Some(w)) => AsAttribute(w)
    case _ => None
  }

  /** `value as? CodableXMLInlineText`, looking through `Optional` wrappers. */
  function AsInlineText(v: Value): (r: Option<string>)
    ensures r.Some? <==> Unwrapped(v).InlineText?
    ensures r.Some? ==> r.value == Unwrapped(v).payload
  {
    match v
    case InlineText(p) => Some(p)
    case Optional(Some(w)) => AsInlineText(w)
    case _ => None
  }

  /** `(value as? XMLCustomElementMode)?.elementMode`, looking through `Optional` wrappers. */
  function ValueMode(v: Value): (r: Option<ElementMode>)
    ensures r.Some? ==> Unwrapped(v).Custom? && r == Unwrapped(v).mode
    ensures Unwrapped(v).Custom? ==> r == Unwrapped(v).mode
  {
    match v
    case Custom(_, m) => m
    case Optional(Some(w)) => ValueMode(w)
    case _ => None
  }

  /** `T.self == Optional<CodableXMLAttribute>.self` for the static type of the written value. */
  predicate HasOptionalAttributeType(v: Value)
    ensures HasOptionalAttributeType(v) ==> AsAttribute(v).Some? || v.NilAttribute?
    ensures HasOptionalAttributeType(v) ==> |HostSessions(v)| == 1 && HostSessions(v)[0].SingleSession?
  {
    v.NilAttribute? || (v.Optional? && v.wrapped.Some? && v.wrapped.value.Attribute?)
  }

  // Sizes used only as termination measures for the encoders' mutual recursion.
  // Every value measures at least 3, more than a typed write's string or integer value.

  function VSize(v: Value): (n: nat)
    ensures n >= 3
  {
    match v
    case Optional(Some(w)) => 1 + VSize(w)
    case Custom(ss, _) => 3 + SessionsSize(ss)
    case Bytes(data) => 3 + 3 * |data|
    case Url(_) => 5
    case _ => 3
  }

  function SessionsSize(ss: seq<Session>): nat
  {
    if |ss| == 0 then 0 else SessionSize(ss[0]) + SessionsSize(ss[1..])
  }

  function SessionSize(s: Session): nat
  {
    match s
    case KeyedSession(ops) => 1 + KOpsSize(ops)
    case UnkeyedSession(ops) => 1 + UOpsSize(ops)
    case SingleSession(ops) => 1 + |ops|
  }

  function KOpsSize(ops: seq<KeyedOp>): nat
  {
    if |ops| == 0 then 0 else KOpSize(ops[0]) + KOpsSize(ops[1..])
  }

  function KOpSize(op: KeyedOp): nat
  {
    match op
    case KValue(_, v) => 1 + VSize(v)
    case _ => 3
  }

  function UOpsSize(ops: seq<UnkeyedOp>): nat
  {
    if |ops| == 0 then 0 else UOpSize(ops[0]) + UOpsSize(ops[1..])
  }

  function UOpSize(op: UnkeyedOp): nat
  {
    match op
    case UValue(v) => 1 + VSize(v)
    case _ => 3
  }

  lemma {:induction false} ByteOpsSize(data: seq<Base64.byte>)
    ensures UOpsSize(ByteOps(data)) == 3 * |data|
    decreases |data|
  {
    if |data| > 0 {
      assert ByteOps(data)[1..] == ByteOps(data[1..]);
      ByteOpsSize(data[1..]);
    }
  }

  /** A value's own calls measure less than the value. */
  lemma {:induction false} HostSessionsSmaller(v: Value)
    ensures SessionsSize(HostSessions(v)) < VSize(v)
  {
    match v
    case Bytes(data) =>
      ByteOpsSize(data);
      assert SessionsSize(HostSessions(v)) == 1 + UOpsSize(ByteOps(data));
    case Url(a) =>
      var ops := [KString(Plain("relative"), a)];
      assert KOpsSize(ops) == 3 by {
        assert ops[1..] == [];
      }
    case Custom(_, _) =>
    case _ =>
  }
}
