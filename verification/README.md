# XMLCoder tree-building encoder, in Dafny

This project models the core of XMLCoder's encoder: the `_XMLEncoder` class that
Swift's `Encodable` traversal drives to build an XML node tree. For every value
the traversal visits, the encoder decides whether it becomes one of:

- an attribute on the enclosing element;
- a bare text node;
- a child element named after its key, with a namespace prefix where one is registered;
- a sequence member, wrapped in an element or spliced inline.

Nested values are handed to a fresh child encoder, and the encoder reads back
that child's storage (nodes plus attributes).

Two versions of the class exist in the repository, and only one of them can be
in a build:

- `Sources/XMLCoder/XMLEncoderInternal.swift` is the current encoder. It is
  modelled in `Encoder.dfy` (module `Encoder`).
- `Sources/XMLCoder/_XMLEncoder.swift` is an earlier encoder with different
  observable rules. It is modelled separately in `Legacy.dfy` (module
  `LegacyEncoder`).

The two share the node model, keys, values and container acquisition.

Layout:

- `Results.dfy`: `Option`, and `Result` with `Fatal(FatalError)`. Every
  `fatalError()` and every failing forced cast in the encoder is a `Fatal`
  result naming the contract violation.
- `Nodes.dfy`: `Node = Element(name, attributes, children) | Text(value)`,
  element modes, and `Storage`. An encoder's storage has a kind (keyed,
  unkeyed or single-value), its nodes and its attributes.
- `Keys.dfy`: coding keys with an optional namespace, and `Render`, the key
  name conversion `_converted(_:)`. The namespace provider is a map from
  namespace to prefix.
- `Values.dfy`: the values the traversal visits. `HostSessions(v)` is what
  `v.encode(to:)` does to an encoder, written as data: the containers it
  acquires, in order, and the writes it issues through each one. `Custom` is
  any user type. The leaf types the encoder meets (strings, integers, `Bool`,
  floating point, `Data`, `Date`, `URL`, the attribute and inline-text
  markers, and `Optional`) have their `encode(to:)` written out.
  `Optional.encode(to:)` writes nil, or hands the wrapped value to the
  single-value container's generic `encode<T>`. Both encoders make that write
  fatal, so a non-nil `Optional` that is not a marker cannot be encoded.
- `Storage.dfy`: container acquisition and `topElement(withName:)`. Both
  variants use this code.
- `Decimal.dfy`: `String(value)` for every integer width. `Parse` is an
  independent reader, and the lemmas show that `Show` is exactly the canonical
  decimal form.
- `Base64.dfy`: `Data.base64EncodedString()`, following section 4 of RFC 4648
  (standard alphabet, `=` padding, no line breaks), with a decoder and the
  round-trip proof.
- `Conversions.dfy`: `converted(value:)` and the Bool strategy.
- `Encoder.dfy`, `EncoderProperties.dfy` and `Examples.dfy`: the current
  encoder, its properties, and whole documents for the repository's test
  records.
- `Legacy.dfy` and `LegacyProperties.dfy`: the earlier encoder and its
  properties, including where it parts from the current one.

How the model works:

- An encoder's state is `Option<Storage>`. It is `None` until a container is
  first requested.
- Each keyed or unkeyed write that needs a nested value starts a child encoder
  from `None`. The encoding functions are mutually recursive and terminate on
  the size of the value.

Three behaviours of the code worth stating plainly:

- **Optional-attribute fields.** A field of static type
  `Optional<CodableXMLAttribute>` becomes an attribute whenever its child
  storage has a node. The attribute holds the string value of the child's
  first node (`XMLEncoderInternal.swift:141-146`).
- **Default sequence-member mode.** When a member's value asks for no mode,
  the code asks the child storage for its `elementMode`. That default lives in
  the storage classes, which are not part of this model, so it is the
  `storageModes` parameter here.
- **Single-value generic writes.** The generic `encode<T>` on a single-value
  container is always fatal (`XMLEncoderInternal.swift:354-356`), so a
  single-value container never holds a nested value.

## Model

| member | source | states |
|---|---|---|
| Keys.Render | Sources/XMLCoder/XMLEncoderInternal.swift:84-93 | a key whose namespace has a prefix in the provider is written `prefix:name`; every other key is written as its plain string value |
| Values.HostSessions | Sources/XMLCoder/XMLEncoderInternal.swift:128-134 | what each leaf value's `encode(to:)` does to the child encoder: every non-custom value acquires exactly one container; a scalar makes exactly one single-value write; a nil `Optional` writes only nil; a non-nil `Optional` makes only the generic single-value write of the wrapped value, and it is the only leaf that makes a generic write |
| Values.AsAttribute | Sources/XMLCoder/XMLEncoderInternal.swift:118 | the cast to `CodableXMLAttribute` succeeds exactly when the value, with its non-nil `Optional` wrappers removed, is an attribute marker, and yields its payload |
| Values.AsInlineText | Sources/XMLCoder/XMLEncoderInternal.swift:123 | the cast to `CodableXMLInlineText` succeeds exactly when the unwrapped value is an inline-text marker, and yields its payload |
| Values.ValueMode | Sources/XMLCoder/XMLEncoderInternal.swift:216-220 | a member's own `elementMode` exists only when the unwrapped value is a user type, and it is that type's declared mode |
| Values.HasOptionalAttributeType | Sources/XMLCoder/XMLEncoderInternal.swift:141 | a value of static type `Optional<CodableXMLAttribute>` is nil or casts to an attribute, and its `encode(to:)` acquires exactly one single-value container |
| EncoderStorage.AcquireKeyed | Sources/XMLCoder/XMLEncoderInternal.swift:54-59 | keyed acquisition succeeds exactly when there is no storage or the storage is keyed; it creates fresh keyed storage only when none exists, reuses the existing storage otherwise, and a storage of another kind fails the forced cast |
| EncoderStorage.AcquireUnkeyed | Sources/XMLCoder/XMLEncoderInternal.swift:168-173 | the same for unkeyed storage |
| EncoderStorage.AcquireSingle | Sources/XMLCoder/XMLEncoderInternal.swift:253-261 | single-value acquisition succeeds exactly when no storage exists, and then gives fresh single-value storage; otherwise it is fatal |
| EncoderStorage.TopElement | Sources/XMLCoder/XMLEncoderInternal.swift:48-50 | the top element has the given name and holds the storage's nodes and attributes in order, or nothing when there is no storage |
| Conversions.ConvertBool | Sources/XMLCoder/XMLEncoderInternal.swift:389-391 | `true` is written as the strategy's `trueValue` and `false` as its `falseValue` |
| Conversions.DefaultBoolRendering | Tests/XMLCoderTests/XMLEncoderTests.swift:401-417 | with the default strategy, `true` is `1` and `false` is `0` |
| Conversions.Converted | Sources/XMLCoder/XMLEncoderInternal.swift:359-375 | a value is replaced by a string exactly when its static type is Date, URL, Data or Bool; Data becomes its Base64 text, Bool its strategy string, Date and URL their formatted strings |
| Decimal.ParseShow | Sources/XMLCoder/XMLEncoderInternal.swift:314-352 | the decimal text written for any integer reads back as that integer |
| Decimal.ShowIsCanonical | Sources/XMLCoder/XMLEncoderInternal.swift:314-352 | the decimal text is canonical (no leading zero, no `-0`), and it is the only canonical text for that integer |
| Base64.DecodeEncode | Sources/XMLCoder/XMLEncoderInternal.swift:385-387 | the Base64 text of any bytes decodes back to the same bytes |
| Base64.EncodeLength | Sources/XMLCoder/XMLEncoderInternal.swift:385-387 | the Base64 text of `n` bytes has `4 * ceil(n / 3)` characters |
| Base64.EncodeAlphabet | Sources/XMLCoder/XMLEncoderInternal.swift:385-387 | the Base64 text uses only the standard alphabet and `=` |
| Base64.EncodeSample | Tests/XMLCoderTests/XMLEncoderTests.swift:441-457 | the bytes `42 00 ff` are written `QgD/` |
| Encoder.SingleStep | Sources/XMLCoder/XMLEncoderInternal.swift:285-356 | a single-value write fails exactly when it is the generic `encode<T>`; otherwise it appends at most one node, always a text node, and never an attribute |
| Encoder.RunSingleOps | Sources/XMLCoder/XMLEncoderInternal.swift:285-356 | a run of single-value writes fails exactly when one of them is generic; otherwise it only appends text nodes, at most one per write |
| Encoder.EncodeTo | Sources/XMLCoder/XMLEncoderInternal.swift:128-134 | encoding a value into an encoder only appends to existing storage and never changes its kind; only keyed storage ever holds attributes |
| Encoder.ChildStorage | Sources/XMLCoder/XMLEncoderInternal.swift:128-134 | a fresh child encoder's storage holds attributes only when it is keyed |
| Encoder.RunSessions | Sources/XMLCoder/XMLEncoderInternal.swift:54-59 | a value that acquires any container leaves storage behind, and existing storage only grows |
| Encoder.RunSession | Sources/XMLCoder/XMLEncoderInternal.swift:253-261 | one acquisition plus its writes only grows existing storage |
| Encoder.RunKeyedOps | Sources/XMLCoder/XMLEncoderInternal.swift:107-149 | keyed writes only append, and add at most one node or attribute each |
| Encoder.KeyedStep | Sources/XMLCoder/XMLEncoderInternal.swift:107-165 | each keyed write only appends, and adds at most one node or attribute |
| Encoder.KeyedNil | Sources/XMLCoder/XMLEncoderInternal.swift:107-111 | a keyed nil write is a no-op unless the nil strategy is `.empty` |
| Encoder.KeyedBool | Sources/XMLCoder/XMLEncoderInternal.swift:113-115 | a keyed Bool write adds at most one item |
| Encoder.KeyedEncode | Sources/XMLCoder/XMLEncoderInternal.swift:117-127 | an attribute marker appends exactly one attribute named after the converted key, holding its payload, and leaves the nodes alone; an inline-text marker appends exactly one text node, ignoring the key |
| Encoder.RunUnkeyedOps | Sources/XMLCoder/XMLEncoderInternal.swift:199-237 | unkeyed writes only append nodes and never add attributes |
| Encoder.UnkeyedStep | Sources/XMLCoder/XMLEncoderInternal.swift:199-249 | each unkeyed write only appends nodes |
| Encoder.UnkeyedNil | Sources/XMLCoder/XMLEncoderInternal.swift:199-203 | an unkeyed nil write is a no-op unless the nil strategy is `.empty` |
| Encoder.UnkeyedBool | Sources/XMLCoder/XMLEncoderInternal.swift:205-207 | an unkeyed Bool write only appends nodes |
| Encoder.UnkeyedEncode | Sources/XMLCoder/XMLEncoderInternal.swift:209-237 | a generic unkeyed write only appends nodes |
| Encoder.EncodeDocument | Sources/XMLCoder/XMLEncoderInternal.swift:48-50 | a document is one element with the requested name |
| EncoderProperties.StringChild | Sources/XMLCoder/XMLEncoderInternal.swift:295-298 | a string's child encoder holds single-value storage with exactly one text node, holding the string |
| EncoderProperties.IntegerChild | Sources/XMLCoder/XMLEncoderInternal.swift:314-352 | an integer's child encoder holds exactly one text node with its decimal text |
| EncoderProperties.EmptyChildVanishes | Sources/XMLCoder/XMLEncoderInternal.swift:135-140 | on the default keyed path, the container is left exactly unchanged if and only if the child created no storage or wrote nothing into it |
| EncoderProperties.DefaultKeyedPath | Sources/XMLCoder/XMLEncoderInternal.swift:147-148 | otherwise exactly one element is appended, named `prefix:key` or the plain key; its attributes and children are the child storage's, in order |
| EncoderProperties.OptionalAttributePath | Sources/XMLCoder/XMLEncoderInternal.swift:141-146 | an `Optional<CodableXMLAttribute>` value whose child wrote a node becomes one attribute holding the first child node's string value; no element is written |
| EncoderProperties.KeyedStringWrite | Sources/XMLCoder/XMLEncoderInternal.swift:117-149 | a string under a key becomes one element holding it as text |
| EncoderProperties.KeyedIntegerWrite | Sources/XMLCoder/XMLEncoderInternal.swift:314-352 | an integer under a key becomes one element holding its decimal text, which reads back as the same integer |
| EncoderProperties.KeyedBoolWrite | Sources/XMLCoder/XMLEncoderInternal.swift:113-115 | a Bool under a key becomes one element holding the strategy string; the typed overload and the generic write agree |
| EncoderProperties.KeyedDataWrite | Sources/XMLCoder/XMLEncoderInternal.swift:385-387 | Data under a key becomes one element holding its Base64 text, which decodes back to the same bytes |
| EncoderProperties.KeyedNilStrategy | Sources/XMLCoder/XMLEncoderInternal.swift:107-111 | a keyed nil write is exactly a keyed write of `""` under `.empty`, giving one element holding empty text; under every other strategy it is a no-op |
| EncoderProperties.UnkeyedNilStrategy | Sources/XMLCoder/XMLEncoderInternal.swift:199-203 | an unkeyed nil write is exactly an unkeyed write of `""` under `.empty`, placed by the single-value storage's mode; under every other strategy it is a no-op |
| EncoderProperties.SingleNilStrategy | Sources/XMLCoder/XMLEncoderInternal.swift:285-289 | a single-value nil write is exactly a write of `""` under `.empty`, and a no-op otherwise |
| EncoderProperties.NilChild | Sources/XMLCoder/XMLEncoderInternal.swift:285-289 | a nil value's child encoder holds single-value storage, with one empty text node only under `.empty` |
| EncoderProperties.NilOptionalAttribute | Sources/XMLCoder/XMLEncoderInternal.swift:135-146 | a nil optional attribute becomes the attribute `key=""` under `.empty` and nothing at all otherwise |
| EncoderProperties.NilOptionalElement | Sources/XMLCoder/XMLEncoderInternal.swift:135-148 | any other nil optional becomes an element holding empty text under `.empty`, and nothing at all otherwise |
| EncoderProperties.WrappedOptionalFatal | Sources/XMLCoder/XMLEncoderInternal.swift:354-356 | a non-nil `Optional` that is not a marker makes its child encoder fatal, so writing it under a key or as a sequence member is fatal |
| EncoderProperties.SequenceMember | Sources/XMLCoder/XMLEncoderInternal.swift:209-237 | a sequence member whose encoding created no storage is fatal; otherwise the value's own mode wins over the storage's; inline appends the child's nodes in order and drops its attributes; `keyed(name)` appends exactly one element named `name` |
| EncoderProperties.SequenceMemberKeepsNodes | Sources/XMLCoder/XMLEncoderInternal.swift:228-236 | a sequence member loses nothing: it appends exactly the child's nodes, or exactly one element holding the child's nodes and attributes |
| EncoderProperties.ConvertedMemberMode | Sources/XMLCoder/XMLEncoderInternal.swift:212-215 | a Bool, Data, Date or URL member is placed by the converted string's mode when that string has one |
| EncoderProperties.CustomModeWins | Sources/XMLCoder/XMLEncoderInternal.swift:216-227 | a member conforming to `XMLCustomElementMode` is placed by its own mode, whatever its storage reports |
| EncoderProperties.KeyedReacquisitionReuses | Sources/XMLCoder/XMLEncoderInternal.swift:54-59 | asking for a keyed container twice writes into the same storage: two keyed sessions equal one session with both write lists |
| EncoderProperties.UnkeyedReacquisitionReuses | Sources/XMLCoder/XMLEncoderInternal.swift:168-173 | the same for unkeyed containers |
| EncoderProperties.SecondAcquisition | Sources/XMLCoder/XMLEncoderInternal.swift:253-261 | after a first container, a single-value request is always fatal and a request of the other kind fails the forced cast; a second acquisition fails only for these reasons or because its own writes fail |
| EncoderProperties.ScalarIntoExistingStorage | Sources/XMLCoder/XMLEncoderInternal.swift:253-261 | encoding a string, number, Bool or nil into an encoder that already has storage is fatal |
| EncoderProperties.DocumentWrapsStorage | Sources/XMLCoder/XMLEncoderInternal.swift:48-50 | an encoding that fails makes the document fail with the same error; otherwise the document element holds everything the value's encoding wrote, in order |
| EncoderExamples.RecordExample | Sources/XMLCoder/XMLEncoderInternal.swift:117-149 | the record `{a: 42, b: "x"}` becomes `<root><a>42</a><b>x</b></root>` under every configuration |
| EncoderExamples.SequenceWrappingExample | Sources/XMLCoder/XMLEncoderInternal.swift:225-235 | `{xs: [1, 2, 3]}` becomes `<xs><element>1</element><element>2</element><element>3</element></xs>` when single-value storage reports `keyed("element")` |
| EncoderExamples.AttributesExample | Tests/XMLCoderTests/XMLEncoderTests.swift:24-34 | attribute fields land on their enclosing element, and inline text lands among its children in field order, as in `<root top_attribute="top"><container attribute="attr"><element>elem</element>text<number>42</number></container></root>` |
| EncoderExamples.NamespacesExample | Tests/XMLCoderTests/XMLEncoderTests.swift:43-55 | a key in a registered namespace is written `ns1:with_namespace`, and a key with no namespace is written plain |
| EncoderExamples.BoolStrategyExample | Tests/XMLCoderTests/XMLEncoderTests.swift:419-439 | the custom strategy `{false: "no", true: "yes"}` writes `yes` and `no` |
| LegacyEncoder.SingleStep | Sources/XMLCoder/_XMLEncoder.swift:332-395 | a single-value write succeeds exactly for strings and integers, appending exactly one text node; nil, Bool, Double and Float writes are fatal, and so is the generic write |
| LegacyEncoder.RunSingleOps | Sources/XMLCoder/_XMLEncoder.swift:332-395 | a run of single-value writes succeeds exactly when every write is a string or an integer, and then appends exactly one text node per write |
| LegacyEncoder.SingleString | Sources/XMLCoder/_XMLEncoder.swift:340-343 | a string write appends one text node holding it |
| LegacyEncoder.EncodeTo | Sources/XMLCoder/_XMLEncoder.swift:145-160 | encoding a value into an encoder only appends to existing storage |
| LegacyEncoder.RunSessions | Sources/XMLCoder/_XMLEncoder.swift:31-36 | a value that acquires any container leaves storage behind, and existing storage only grows |
| LegacyEncoder.RunSession | Sources/XMLCoder/_XMLEncoder.swift:300-308 | one acquisition plus its writes only grows existing storage |
| LegacyEncoder.KeyedString | Sources/XMLCoder/_XMLEncoder.swift:92-95 | a keyed string write appends one element named after the converted key, holding the string |
| LegacyEncoder.RunKeyedOps | Sources/XMLCoder/_XMLEncoder.swift:84-176 | every successful keyed write adds exactly one node or attribute |
| LegacyEncoder.KeyedStep | Sources/XMLCoder/_XMLEncoder.swift:84-176 | a keyed write fails exactly when it is not a string, integer or generic write, or the generic write fails; otherwise it adds exactly one item |
| LegacyEncoder.KeyedEncode | Sources/XMLCoder/_XMLEncoder.swift:145-152 | an attribute marker appends one attribute and an inline-text marker one text node; every successful write adds exactly one item |
| LegacyEncoder.UnkeyedString | Sources/XMLCoder/_XMLEncoder.swift:220-223 | a string member becomes one element named `element`, holding the string |
| LegacyEncoder.RunUnkeyedOps | Sources/XMLCoder/_XMLEncoder.swift:212-296 | every successful unkeyed write appends exactly one element and never an attribute |
| LegacyEncoder.UnkeyedStep | Sources/XMLCoder/_XMLEncoder.swift:212-296 | an unkeyed write fails exactly when it is not a string, integer or generic write, or the generic write fails; otherwise it appends exactly one element |
| LegacyEncoder.UnkeyedEncode | Sources/XMLCoder/_XMLEncoder.swift:273-284 | a generic member always appends exactly one element |
| LegacyEncoder.EncodeDocument | Sources/XMLCoder/_XMLEncoder.swift:25-27 | a document is one element with the requested name |
| LegacyProperties.KeyedStringWrite | Sources/XMLCoder/_XMLEncoder.swift:61-143 | a string under a key becomes one element named `prefix:key` or the plain key, holding the string; every integer width goes through the same path with its decimal text, which reads back as the integer |
| LegacyProperties.KeyedAlwaysEmits | Sources/XMLCoder/_XMLEncoder.swift:153-159 | a non-marker generic keyed write always appends exactly one element holding the child's attributes and nodes, and an empty element when the child created no storage |
| LegacyProperties.EmptyRecordContrast | Sources/XMLCoder/_XMLEncoder.swift:145-160 | a record with no fields: the current encoder writes nothing for it, the earlier one an empty element named after the key |
| LegacyProperties.PrimitiveFieldFatal | Sources/XMLCoder/_XMLEncoder.swift:84-103 | a nil, Bool, Double, Float or Date field makes the keyed write fatal, through the typed overload and through the generic write |
| LegacyProperties.WrappedOptionalFatal | Sources/XMLCoder/_XMLEncoder.swift:393-395 | in the earlier encoder too, a non-nil `Optional` that is not a marker is fatal as a child value, under a key and as a sequence member |
| LegacyProperties.SequenceStringWrite | Sources/XMLCoder/_XMLEncoder.swift:201-271 | a string member becomes `<element>s</element>`, and an integer member is its decimal string written the same way |
| LegacyProperties.SequenceMember | Sources/XMLCoder/_XMLEncoder.swift:273-284 | when the child's first node is an element, that element alone is appended; otherwise one `element` element wraps everything the child wrote |
| LegacyProperties.LaterSiblingsDropped | Sources/XMLCoder/_XMLEncoder.swift:276-283 | a record member `{k1: t1, k2: t2}` of a sequence appends only `<k1>t1</k1>`, and `k2` is lost |
| LegacyProperties.RecordMemberKept | Sources/XMLCoder/XMLEncoderInternal.swift:228-235 | the current encoder keeps both fields of the same member, inside one element named by the keyed storage's mode |
| LegacyProperties.SingleValueAcquisition | Sources/XMLCoder/_XMLEncoder.swift:300-343 | a string encoded into an encoder that already has storage is fatal; into a fresh one it is exactly one text node |
| LegacyProperties.KeyedReacquisitionReuses | Sources/XMLCoder/_XMLEncoder.swift:31-36 | a second keyed request continues in the storage the first one left |
| LegacyProperties.DocumentWrapsStorage | Sources/XMLCoder/_XMLEncoder.swift:25-27 | an encoding that fails makes the document fail with the same error; otherwise the document element holds everything the value's encoding wrote, in order |

## Left out

- Namespace declarations: hoisting `xmlns:prefix="uri"` attributes to the root
  element, and prefix allocation. Both happen in `XMLNamespaceProvider` and the
  top-level `XMLEncoder`, which are not part of this model. The provider is an
  abstract map from namespace to prefix.
- XML serialization and escaping: they happen after the tree is built and are
  not part of this model.
- Floating-point and date formatting: `NumberFormatter` and `DateFormatter`
  are Foundation calls. `Double`, `Float` and `Date` values carry their
  formatter output. A `None` rendering stands for a formatter that returned
  nil, and that write does nothing. A URL carries its `absoluteString`.
- Foundation's own `encode(to:)` for `Data`, `Date` and `URL` is not visible.
  The model assumes:
  - `Data` writes one `UInt8` per byte into an unkeyed container;
  - `Date` writes its time interval as a `Double` into a single-value container;
  - `URL` (with no base URL) writes its absolute string under the key `relative`.
- Errors thrown by a value's own `encode(to:)`: in the source such an error
  propagates out of `try value.encode(to: childEncoder)`
  (`XMLEncoderInternal.swift:133` and `217`, `_XMLEncoder.swift:157` and `275`)
  and ends the encode as a catchable error, which is distinct from
  `fatalError()`. A `Custom` value's sessions are data that cannot throw, so
  `Result` has only `Ok` and `Fatal`. Every encoder error in the model is one
  of the encoder's own contract violations.
- `CodableXMLAttribute` and `CodableXMLInlineText` are assumed to encode
  themselves as a single string.
- Whether a plain `String` value conforms to `XMLCustomElementMode` is not
  visible. The model assumes it does not, so a typed Bool or nil write on an
  unkeyed container is placed by the storage's mode.
- The storage classes' `elementMode` defaults and the `XMLStringElement` mode
  are not part of this model. They are the `storageModes` and `convertedMode`
  parameters of `Encoder.Options`.
- `XMLTypedKey` and its role wrapping, including the array-with-wrapper role,
  are not part of this model. A key is a name plus an optional namespace.
- Nil-encoding strategies other than `.empty` all behave as omission in the
  code, so they are one constructor, `OmitNil`.
- `nestedContainer`, `nestedUnkeyedContainer` and `superEncoder` are
  `fatalError()` stubs in both variants. They are modelled only as fatal
  writes.
- The `#if false` key-strategy blocks are dead code. The unused `codingPath`
  and `userInfo` fields are not modelled.
- `XMLNode.element(withName:stringValue:)` is modelled as an element holding
  one text node.
- The top-level `XMLEncoder.encode`, which chooses the root name and
  serializes, is not part of this model. `EncodeDocument` stops at the root
  element.

## Findings

| source | as written | input that shows it | evidently intended | confidence | as-written member | corrected member |
|---|---|---|---|---|---|---|
| Sources/XMLCoder/_XMLEncoder.swift:276-283 | a generic sequence member whose child encoder's first node is an element contributes only that element | an array holding a record `{k1: "a", k2: "b"}`: the member appends `<k1>a</k1>`, and `k2` is silently lost | every node a member's encoding wrote is kept, inline or inside one wrapping element, as `XMLEncoderInternal.swift:228-236` does | medium; not executed | LegacyProperties.LaterSiblingsDropped | EncoderProperties.SequenceMemberKeepsNodes |
