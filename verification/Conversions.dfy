/**
  Leaf conversions of the tree-building encoder: the values whose static type
  is `Date`, `URL`, `Data` or `Bool` are turned into strings before encoding
  (`converted(value:)`); everything else is encoded as itself.
 */
module Conversions {

  import opened Results
  import opened Values
  import Base64

  /** The two strings a `Bool` is written as. */
  datatype BoolStrategy = BoolStrategy(falseValue: string, trueValue: string)

  /** The default strategy writes `0` and `1`. */
  const DefaultBoolStrategy: BoolStrategy := BoolStrategy("0", "1")

  /** `converted(_ bool:)` */
  function ConvertBool(strategy: BoolStrategy, b: bool): (r: string)
    ensures b ==> r == strategy.trueValue
    ensures !b ==> r == strategy.falseValue
  {
    if b then strategy.trueValue else strategy.falseValue
  }

  /**
    `converted(value:)`: the string a value is replaced by, or `None` when the
    value is encoded as itself. The check is on the exact static type, so an
    `Optional` wrapping a date is not converted.
   */
  function Converted(strategy: BoolStrategy, v: Value): (r: Option<string>)
    ensures r.Some? <==> v.Date? || v.Url? || v.Bytes? || v.Boolean?
    ensures v.Bytes? ==> r == Some(Base64.Encode(v.data))
    ensures v.Boolean? ==> r == Some(ConvertBool(strategy, v.b))
    ensures v.Date? ==> r == Some(v.formatted)
    ensures v.Url? ==> r == Some(v.absolute)
  {
    match v
    case Date(formatted, _) => Some(formatted)
    case Url(absolute) => Some(absolute)
    case Bytes(data) => Some(Base64.Encode(data))
    case Boolean(b) => Some(ConvertBool(strategy, b))
    case _ => None
  }

  /** With the default strategy `true` is written `1` and `false` is written `0`. */
  lemma DefaultBoolRendering()
    ensures ConvertBool(DefaultBoolStrategy, true) == "1"
    ensures ConvertBool(DefaultBoolStrategy, false) == "0"
  {
  }
}
