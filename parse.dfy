/** Command.parse: the conversion of a token to the type of the field or parameter it is
    given to. */
module CliParse {
  import opened Wrappers
  import opened Text
  import opened JavaNumbers

  /** The target types the conversion tells apart. `TextType` is any type a String can be
      assigned to (String itself, Object, CharSequence, ...); `OtherType` is any type none of
      the branches accepts. */
  datatype ValueType = TextType | LongType | IntType | ShortType | ByteType | BooleanType | OtherType(name: string)

  datatype Value = TextValue(text: string) | IntegralValue(number: int) | BooleanValue(flag: bool)

  datatype ParseError =
    | NumberFormat(input: string)    // NumberFormatException from parseLong / parseInt / ...
    | CannotConvert(target: string)  // "Can't convert String to <type>"

  /** The range [min, max] of an integral target type. */
  function Range(t: ValueType): (bounds: (int, int))
    requires t.LongType? || t.IntType? || t.ShortType? || t.ByteType?
    ensures bounds.0 < 0 < bounds.1
  {
    match t
    case LongType => (LONG_MIN, LONG_MAX)
    case IntType => (INT_MIN, INT_MAX)
    case ShortType => (SHORT_MIN, SHORT_MAX)
    case ByteType => (BYTE_MIN, BYTE_MAX)
  }

  predicate IsIntegral(t: ValueType) {
    t.LongType? || t.IntType? || t.ShortType? || t.ByteType?
  }

  /** The conversion, branch by branch in the order the source tests them. */
  function Parse(data: string, t: ValueType): (r: Result<Value, ParseError>)
    ensures t.TextType? ==> r == Success(TextValue(data))
    ensures IsIntegral(t) ==> r.Failure? ==> r.error == NumberFormat(data)
    ensures IsIntegral(t) && r.Success? ==>
              r.value.IntegralValue? && Range(t).0 <= r.value.number <= Range(t).1
    ensures IsIntegral(t) && r.Success? ==> IsDecimalNumeral(data)
    ensures t.BooleanType? ==> r.Success? && r.value.BooleanValue?
    ensures t.OtherType? ==> r == Failure(CannotConvert(t.name))
  {
    match t
    case TextType => Success(TextValue(data))
    case OtherType(name) => Failure(CannotConvert(name))
    case BooleanType => Success(BooleanValue(EqualsIgnoreCase(data, "true")))
    case _ =>
      var bounds := Range(t);
      var n := ParseInteger(data, bounds.0, bounds.1);
      if n.Some? then Success(IntegralValue(n.value)) else Failure(NumberFormat(data))
  }

  /** Every number of an integral type survives being written out and parsed back. */
  lemma ParseIntegralRoundTrip(n: int, t: ValueType)
    requires IsIntegral(t) && Range(t).0 <= n <= Range(t).1
    ensures Parse(FormatDecimal(n), t) == Success(IntegralValue(n))
  {
    ParseFormatRoundTrip(n, Range(t).0, Range(t).1);
  }

  /** A number outside the range of the type is rejected. */
  lemma ParseIntegralOutOfRange(n: int, t: ValueType)
    requires IsIntegral(t) && !(Range(t).0 <= n <= Range(t).1)
    ensures Parse(FormatDecimal(n), t) == Failure(NumberFormat(FormatDecimal(n)))
  {
    ParseFormatRoundTrip(n, Range(t).0, Range(t).1);
  }

  /** Boolean.parseBoolean: true exactly for "true" in any mix of cases, false for anything
      else, never an error. */
  lemma ParseBooleanIgnoresCase(data: string)
    ensures Parse(data, BooleanType) == Success(BooleanValue(ToLower(data) == "true"))
  {
    EqualsIgnoreCaseIsLowerEquality(data, "true");
    assert ToLower("true") == "true";
  }
}
