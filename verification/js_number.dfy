/** Integer text conversions: the global `parseInt` with no radix argument, and
    the decimal form `String(n)` gives an integer. Numbers are modelled as
    mathematical integers; `NaN` is `None`. */
module JsNumber {
  import opened Base
  import JsText

  /** The value of an ASCII letter-or-digit as a digit in radix 36, or 36 when the
      character is not one. `parseInt` accepts a character in radix `b` when this
      is below `b`. */
  function DigitOf(c: char): nat
  {
    if '0' <= c <= '9' then (c as int - '0' as int)
    else if 'a' <= c <= 'z' then (c as int - 'a' as int) + 10
    else if 'A' <= c <= 'Z' then (c as int - 'A' as int) + 10
    else 36
  }

  predicate AllDigits(s: string, radix: nat)
  {
    forall i :: 0 <= i < |s| ==> DigitOf(s[i]) < radix
  }

  /** Length of the longest prefix of `s` made of digits of `radix`. */
  function LeadingDigits(s: string, radix: nat): (k: nat)
    ensures k <= |s| && AllDigits(s[..k], radix)
    ensures k < |s| ==> DigitOf(s[k]) >= radix
    decreases |s|
  {
    if |s| > 0 && DigitOf(s[0]) < radix then
      var k := LeadingDigits(s[1..], radix);
      assert s[..k + 1] == [s[0]] + s[1..][..k];
      k + 1
    else 0
  }

  /** The number the digit string `ds` denotes in `radix`, most significant first. */
  function DigitsValue(ds: string, radix: nat): nat
    requires AllDigits(ds, radix)
    decreases |ds|
  {
    if |ds| == 0 then 0
    else DigitsValue(ds[..|ds| - 1], radix) * radix + DigitOf(ds[|ds| - 1])
  }

  function DigitChar(d: nat): (c: char)
    requires d < 10
    ensures DigitOf(c) == d
  {
    ('0' as int + d) as char
  }

  /** The decimal digits of a natural number, without leading zeros. */
  function Decimal(n: nat): (s: string)
    ensures |s| >= 1 && AllDigits(s, 10)
    ensures |s| > 1 ==> s[0] != '0'
  {
    if n < 10 then [DigitChar(n)]
    else
      var d := Decimal(n / 10);
      assert DigitOf(d[0]) != 0 || |d| == 1;
      d + [DigitChar(n % 10)]
  }

  /** `String(n)` for an integer `n`. */
  function IntToString(n: int): string
  {
    if n < 0 then "-" + Decimal(-n) else Decimal(n)
  }

  /** The longest run of `radix` digits at the start of `s`, read as a number;
      `None` when `s` does not start with a digit. */
  function ReadDigits(s: string, radix: nat): (r: Option<nat>)
    ensures r.None? <==> (|s| == 0 || DigitOf(s[0]) >= radix)
  {
    var k := LeadingDigits(s, radix);
    if k == 0 then None else Some(DigitsValue(s[..k], radix))
  }

  /** `parseInt` on text that starts after the whitespace and the sign: a
      `0x`/`0X` prefix switches to radix 16, otherwise radix 10. */
  function ParseMagnitude(u: string): Option<nat>
  {
    if |u| >= 2 && u[0] == '0' && (u[1] == 'x' || u[1] == 'X') then ReadDigits(u[2..], 16)
    else ReadDigits(u, 10)
  }

  /** The global `parseInt(s)`: skip leading whitespace, then read a signed
      number; no digit at all gives `NaN`. A result is only ever negative
      behind a minus sign, and a minus sign never gives a positive result. */
  function ParseInt(s: string): (r: Option<int>)
    ensures JsText.AllWhiteSpace(s) ==> r.None?
    ensures r.Some? ==>
      var t := JsText.TrimStart(s);
      && |t| > 0
      && (r.value < 0 ==> t[0] == '-')
      && (t[0] == '-' ==> r.value <= 0)
  {
    JsText.TrimStartOfWhite(s);
    ParseSigned(JsText.TrimStart(s))
  }

  /** `parseInt` after the whitespace: an optional sign, then the magnitude,
      read in radix 16 after a `0x`/`0X` prefix and in radix 10 otherwise. */
  function ParseSigned(t: string): (r: Option<int>)
    ensures t == [] ==> r.None?
    ensures r.Some? ==> |t| > 0 && (r.value < 0 ==> t[0] == '-') && (t[0] == '-' ==> r.value <= 0)
  {
    var negative := |t| > 0 && t[0] == '-';
    var u := if |t| > 0 && (t[0] == '-' || t[0] == '+') then t[1..] else t;
    match ParseMagnitude(u)
    case None => None
    case Some(m) =>
      var v: int := m;
      Some(if negative then -v else v)
  }

  /** Reading back the decimal digits of `n` gives `n`. */
  lemma {:induction false} DecimalValue(n: nat)
    ensures DigitsValue(Decimal(n), 10) == n
  {
    if n >= 10 {
      DecimalValue(n / 10);
      var s := Decimal(n);
      assert s[..|s| - 1] == Decimal(n / 10);
    }
  }

  /** `parseInt(String(n)) === n` for every integer `n`. */
  lemma ParseIntToString(n: int)
    ensures ParseInt(IntToString(n)) == Some(n)
  {
    var m := if n < 0 then -n else n;
    var d := Decimal(m);
    MagnitudeOfDecimal(m);
    if n < 0 {
      MinusSign(d);
      NoLeadingWhite("-" + d);
      ParseNegative(d, m);
    } else {
      DigitNotWhite(d[0]);
      NoLeadingWhite(d);
      ParseNonNegative(d, m);
    }
  }

  /** Whitespace in front of the text does not change what `parseInt` reads. */
  lemma ParseIntSkipsWhiteSpace(w: string, s: string)
    requires JsText.AllWhiteSpace(w)
    ensures ParseInt(w + s) == ParseInt(s)
  {
    JsText.TrimStartSkips(w, s);
  }

  /** `parseInt` reads the leading decimal digits and ignores whatever follows
      the first non-digit, as in `parseInt("12abc") === 12`, unless the digits
      are a lone `0` that a following `x` turns into a hexadecimal prefix. */
  lemma ParseIntReadsLeadingDigits(ds: string, rest: string)
    requires |ds| > 0 && AllDigits(ds, 10)
    requires rest == [] || DigitOf(rest[0]) >= 10
    requires ds[0] != '0' || |ds| > 1 || rest == [] || (rest[0] != 'x' && rest[0] != 'X')
    ensures ParseInt(ds + rest) == Some(DigitsValue(ds, 10))
  {
    ReadLeadingDigits(ds, rest);
    NotHexPrefix(ds, rest);
    ParseIntOfDigitStart(ds + rest, DigitsValue(ds, 10));
  }

  /** Text that starts with a decimal digit is read by `parseInt` unsigned. */
  lemma ParseIntOfDigitStart(s: string, m: nat)
    requires |s| > 0 && DigitOf(s[0]) < 10 && ParseMagnitude(s) == Some(m)
    ensures ParseInt(s) == Some(m)
  {
    DigitNotWhite(s[0]);
    NoLeadingWhite(s);
    ParseNonNegative(s, m);
  }

  lemma ReadLeadingDigits(ds: string, rest: string)
    requires |ds| > 0 && AllDigits(ds, 10)
    requires rest == [] || DigitOf(rest[0]) >= 10
    ensures var s := ds + rest; |s| > 0 && DigitOf(s[0]) < 10
    ensures ReadDigits(ds + rest, 10) == Some(DigitsValue(ds, 10))
  {
    LeadingDigitsOfPrefix(ds, rest, 10);
    assert (ds + rest)[..|ds|] == ds;
  }

  lemma NotHexPrefix(ds: string, rest: string)
    requires |ds| > 0 && AllDigits(ds, 10)
    requires ds[0] != '0' || |ds| > 1 || rest == [] || (rest[0] != 'x' && rest[0] != 'X')
    ensures ParseMagnitude(ds + rest) == ReadDigits(ds + rest, 10)
  {
    var s := ds + rest;
    if |ds| > 1 {
      assert s[1] == ds[1] && DigitOf(ds[1]) < 10;
    }
  }

  /** Digits followed by a non-digit: exactly the digits are leading. */
  lemma {:induction false} LeadingDigitsOfPrefix(ds: string, rest: string, radix: nat)
    requires AllDigits(ds, radix)
    requires rest == [] || DigitOf(rest[0]) >= radix
    ensures LeadingDigits(ds + rest, radix) == |ds|
    decreases |ds|
  {
    if |ds| > 0 {
      assert (ds + rest)[1..] == ds[1..] + rest;
      LeadingDigitsOfPrefix(ds[1..], rest, radix);
    } else {
      assert ds + rest == rest;
    }
  }

  lemma MinusSign(d: string)
    ensures ("-" + d)[0] == '-' && ("-" + d)[1..] == d
  {
  }

  lemma NoLeadingWhite(s: string)
    requires |s| > 0 && !JsText.IsWhiteSpace(s[0])
    ensures JsText.TrimStart(s) == s
  {
  }

  lemma ParseNegative(d: string, m: nat)
    requires ParseMagnitude(d) == Some(m)
    ensures ParseSigned("-" + d) == Some(-(m as int))
  {
    MinusSign(d);
  }

  lemma ParseNonNegative(d: string, m: nat)
    requires ParseMagnitude(d) == Some(m) && |d| > 0 && DigitOf(d[0]) < 10
    ensures ParseSigned(d) == Some(m)
  {
  }

  /** The decimal digits of `m`, read without a sign, give `m`. */
  lemma MagnitudeOfDecimal(m: nat)
    ensures ParseMagnitude(Decimal(m)) == Some(m)
  {
    var d := Decimal(m);
    LeadingAllDigits(d, 10);
    assert d[..|d|] == d;
    DecimalValue(m);
    assert ReadDigits(d, 10) == Some(m);
  }

  lemma DigitNotWhite(c: char)
    requires DigitOf(c) < 10
    ensures !JsText.IsWhiteSpace(c)
  {
  }

  /** A string of digits is read to its end. */
  lemma {:induction false} LeadingAllDigits(s: string, radix: nat)
    requires AllDigits(s, radix)
    ensures LeadingDigits(s, radix) == |s|
    decreases |s|
  {
    if |s| > 0 {
      LeadingAllDigits(s[1..], radix);
    }
  }
}
