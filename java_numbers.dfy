/** Decimal integer conversion in the manner of `Long.parseLong`, `Integer.parseInt`,
    `Short.parseShort` and `Byte.parseByte` in radix 10, restricted to the ASCII digits
    '0'..'9' (java.lang also accepts every other Unicode decimal digit), and the canonical
    decimal form produced by `toString`. */
module JavaNumbers {
  import opened Wrappers

  const LONG_MIN: int := -0x8000_0000_0000_0000
  const LONG_MAX: int := 0x7fff_ffff_ffff_ffff
  const INT_MIN: int := -0x8000_0000
  const INT_MAX: int := 0x7fff_ffff
  const SHORT_MIN: int := -0x8000
  const SHORT_MAX: int := 0x7fff
  const BYTE_MIN: int := -0x80
  const BYTE_MAX: int := 0x7f

  predicate IsDigit(c: char) {
    '0' <= c <= '9'
  }

  predicate AllDigits(s: string) {
    forall i :: 0 <= i < |s| ==> IsDigit(s[i])
  }

  function DigitValue(c: char): nat
    requires IsDigit(c)
  {
    c as int - '0' as int
  }

  function DigitChar(d: nat): (c: char)
    requires d < 10
    ensures IsDigit(c) && DigitValue(c) == d
  {
    ('0' as int + d) as char
  }

  /** The value of a run of decimal digits, most significant first (0 for the empty run). */
  function DigitsValue(s: string): nat
    requires AllDigits(s)
  {
    if s == [] then 0 else DigitsValue(s[..|s| - 1]) * 10 + DigitValue(s[|s| - 1])
  }

  /** Java's parse of a decimal integer into a type whose range is [min, max]: an optional
      leading '-' or '+', then at least one digit and nothing else; the value must lie in the
      range. `None` stands for the NumberFormatException. */
  function ParseInteger(s: string, min: int, max: int): (r: Option<int>)
    ensures r.Some? ==> min <= r.value <= max
  {
    var negative := |s| > 0 && s[0] == '-';
    var digits := if |s| > 0 && (s[0] == '-' || s[0] == '+') then s[1..] else s;
    if digits == [] || !AllDigits(digits) then None
    else
      var magnitude: int := DigitsValue(digits);
      var v := if negative then -magnitude else magnitude;
      if min <= v <= max then Some(v) else None
  }

  /** The shape Java's decimal parse accepts: an optional '+' or '-', then one or more
      ASCII digits and nothing else. */
  predicate IsDecimalNumeral(s: string) {
    (|s| > 0 && AllDigits(s)) || (|s| > 1 && (s[0] == '+' || s[0] == '-') && AllDigits(s[1..]))
  }

  /** Only numerals parse, whatever the range. */
  lemma ParseAcceptsOnlyNumerals(s: string, min: int, max: int)
    ensures ParseInteger(s, min, max).Some? ==> IsDecimalNumeral(s)
  {
  }

  /** The empty string, a lone sign, trailing garbage and leading blanks are refused. */
  lemma ParseRefusesMalformed(min: int, max: int)
    ensures ParseInteger("", min, max).None?
    ensures ParseInteger("-", min, max).None? && ParseInteger("+", min, max).None?
    ensures ParseInteger("12a", min, max).None? && ParseInteger(" 1", min, max).None?
    ensures ParseInteger("1 ", min, max).None? && ParseInteger("+-1", min, max).None?
  {
    assert !IsDigit("12a"[2]) && !IsDigit(" 1"[0]) && !IsDigit("1 "[1]) && !IsDigit("+-1"[1]);
  }

  /** A leading '+' changes nothing. */
  lemma ParsePlusSign(d: string, min: int, max: int)
    requires |d| > 0 && AllDigits(d)
    ensures ParseInteger("+" + d, min, max) == ParseInteger(d, min, max)
  {
    assert ("+" + d)[1..] == d;
    assert IsDigit(d[0]);
  }

  /** A leading '-' negates: "-d" parses in [min, max] as "d" parses in [-max, -min], negated. */
  lemma ParseMinusSign(d: string, min: int, max: int)
    requires |d| > 0 && AllDigits(d)
    ensures ParseInteger("-" + d, min, max)
         == match ParseInteger(d, -max, -min) case Some(v) => Some(-v) case None => None
  {
    assert ("-" + d)[1..] == d;
    assert IsDigit(d[0]);
  }

  lemma {:induction false} DigitsValueLeadingZero(d: string)
    requires AllDigits(d)
    ensures AllDigits("0" + d) && DigitsValue("0" + d) == DigitsValue(d)
  {
    var z := "0" + d;
    assert AllDigits(z) by {
      forall i | 0 <= i < |z| ensures IsDigit(z[i]) {
        if i > 0 { assert z[i] == d[i - 1]; }
      }
    }
    if d == [] {
      assert z[..|z| - 1] == [];
    } else {
      var init := d[..|d| - 1];
      assert z[..|z| - 1] == "0" + init;
      assert z[|z| - 1] == d[|d| - 1];
      DigitsValueLeadingZero(init);
    }
  }

  /** What a run of digits parses to. */
  lemma ParseDigits(t: string, min: int, max: int)
    requires |t| > 0 && AllDigits(t)
    ensures var v := DigitsValue(t);
      ParseInteger(t, min, max) == if min <= v <= max then Some(v) else None
  {
    assert IsDigit(t[0]);
  }

  lemma ParseUnsignedLeadingZero(d: string, min: int, max: int)
    requires |d| > 0 && AllDigits(d)
    ensures ParseInteger("0" + d, min, max) == ParseInteger(d, min, max)
  {
    DigitsValueLeadingZero(d);
    ParseDigits("0" + d, min, max);
    ParseDigits(d, min, max);
  }

  /** A leading zero after the optional sign changes nothing. */
  lemma ParseLeadingZero(sign: string, d: string, min: int, max: int)
    requires sign == "" || sign == "+" || sign == "-"
    requires |d| > 0 && AllDigits(d)
    ensures ParseInteger(sign + "0" + d, min, max) == ParseInteger(sign + d, min, max)
  {
    DigitsValueLeadingZero(d);
    assert sign + "0" + d == sign + ("0" + d);
    if sign == "" {
      assert sign + ("0" + d) == "0" + d && sign + d == d;
      ParseUnsignedLeadingZero(d, min, max);
    } else if sign == "+" {
      ParsePlusSign("0" + d, min, max);
      ParsePlusSign(d, min, max);
      ParseUnsignedLeadingZero(d, min, max);
    } else {
      ParseMinusSign("0" + d, min, max);
      ParseMinusSign(d, min, max);
      ParseUnsignedLeadingZero(d, -max, -min);
    }
  }

  /** Integer.parseInt. */
  function ParseInt(s: string): Option<int> {
    ParseInteger(s, INT_MIN, INT_MAX)
  }

  /** The decimal digits of a natural number, without leading zeros. */
  function FormatNat(n: nat): (s: string)
    ensures |s| > 0 && AllDigits(s)
  {
    if n < 10 then [DigitChar(n)] else FormatNat(n / 10) + [DigitChar(n % 10)]
  }

  /** Long.toString / Integer.toString: a '-' for negative numbers, then the digits. */
  function FormatDecimal(n: int): string {
    if n < 0 then "-" + FormatNat(-n) else FormatNat(n)
  }

  lemma {:induction false} DigitsOfFormat(n: nat)
    ensures DigitsValue(FormatNat(n)) == n
  {
    if n >= 10 {
      var s := FormatNat(n);
      assert s[..|s| - 1] == FormatNat(n / 10);
      DigitsOfFormat(n / 10);
    }
  }

  /** Parsing the decimal form of a number gives the number back exactly when it lies in
      the range, and fails otherwise. */
  lemma ParseFormatRoundTrip(n: int, min: int, max: int)
    ensures ParseInteger(FormatDecimal(n), min, max) == if min <= n <= max then Some(n) else None
  {
    var s := FormatDecimal(n);
    if n < 0 {
      var digits := FormatNat(-n);
      assert s == "-" + digits && s[0] == '-' && s[1..] == digits;
      DigitsOfFormat(-n);
      assert DigitsValue(digits) == -n;
    } else {
      var digits := FormatNat(n);
      assert s == digits;
      assert IsDigit(s[0]);
      DigitsOfFormat(n);
    }
  }
}
