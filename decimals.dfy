/**
 * The numbers that `parse_amount` hands to Python's `float()`, kept exact:
 * a decimal is `units` times ten to the power `-scale`. The accepted text is
 * optional whitespace, an optional sign, digits with at most one '.', at least
 * one digit, optional whitespace.
 */
module Decimals {
  import opened Wrappers
  import opened Text
  import Sequences

  datatype Decimal = Decimal(units: int, scale: nat)

  function Negate(d: Decimal): Decimal {
    Decimal(-d.units, d.scale)
  }

  function Abs(x: int): nat {
    if x < 0 then -x else x
  }

  predicate IsDigit(c: char) {
    '0' <= c <= '9'
  }

  predicate AllDigits(s: string) {
    forall i :: 0 <= i < |s| ==> IsDigit(s[i])
  }

  /** The value of a string of decimal digits, most significant first. */
  function DigitsValue(ds: string): nat
    requires AllDigits(ds)
  {
    if ds == [] then 0 else DigitsValue(ds[..|ds| - 1]) * 10 + (ds[|ds| - 1] as int - '0' as int)
  }

  function DigitChar(n: nat): (c: char)
    requires n < 10
    ensures IsDigit(c) && c as int - '0' as int == n
  {
    ('0' as int + n) as char
  }

  /** The decimal digits of `n`, most significant first. */
  function NatDigits(n: nat): (ds: string)
    ensures |ds| >= 1 && AllDigits(ds) && DigitsValue(ds) == n
  {
    if n < 10 then [DigitChar(n)]
    else
      var init := NatDigits(n / 10);
      var ds := init + [DigitChar(n % 10)];
      assert ds[..|ds| - 1] == init;
      ds
  }

  /** A leading zero does not change the value of a digit string. */
  lemma {:induction false} LeadingZero(ds: string)
    requires AllDigits(ds)
    ensures AllDigits(['0'] + ds) && DigitsValue(['0'] + ds) == DigitsValue(ds)
  {
    if ds != [] {
      var init := ds[..|ds| - 1];
      LeadingZero(init);
      assert (['0'] + ds)[..|ds|] == ['0'] + init;
    }
  }

  /** `ds` with zeros in front until it has at least `width` digits. */
  function PadZeros(ds: string, width: nat): (r: string)
    requires AllDigits(ds)
    ensures AllDigits(r) && DigitsValue(r) == DigitsValue(ds)
    ensures |r| >= width && |r| >= |ds|
    decreases width - |ds|
  {
    if |ds| >= width then ds
    else
      LeadingZero(ds);
      PadZeros(['0'] + ds, width)
  }

  /** The text of a decimal with exactly `scale` digits after the point. */
  function FormatDecimal(d: Decimal): string
  {
    var ds := PadZeros(NatDigits(Abs(d.units)), d.scale + 1);
    var k := |ds| - d.scale;
    (if d.units < 0 then "-" else "") + ds[..k] + (if d.scale == 0 then "" else "." + ds[k..])
  }

  /** Digits with at most one '.', and at least one digit. */
  function ParseUnsigned(body: string): Option<Decimal>
  {
    if '.' in body then
      var k := Sequences.FirstIndex(body, '.');
      var whole, fraction := body[..k], body[k + 1..];
      if AllDigits(whole + fraction) && |whole + fraction| >= 1
      then Some(Decimal(DigitsValue(whole + fraction), |fraction|))
      else None
    else if AllDigits(body) && |body| >= 1 then Some(Decimal(DigitsValue(body), 0))
    else None
  }

  /** `float(s)` on the decimal forms: `None` where Python raises ValueError. */
  function ParseFloat(s: string): Option<Decimal>
  {
    var t := Strip(s);
    if t == [] then None
    else
      var body := if t[0] == '-' || t[0] == '+' then t[1..] else t;
      match ParseUnsigned(body)
      case None => None
      case Some(d) => Some(if t[0] == '-' then Negate(d) else d)
  }

  /** Digits and at most one '.', with at least one digit. */
  predicate UnsignedText(b: string) {
    && (forall c :: c in b ==> IsDigit(c) || c == '.')
    && multiset(b)['.'] <= 1
    && |b| > multiset(b)['.']
  }

  /** The stripped text `float()` accepts: an optional sign, then `UnsignedText`. */
  predicate FloatText(t: string) {
    |t| >= 1 && UnsignedText(if t[0] == '-' || t[0] == '+' then t[1..] else t)
  }

  lemma AllDigitsMembers(s: string)
    ensures AllDigits(s) <==> forall c :: c in s ==> IsDigit(c)
  {
    if forall c :: c in s ==> IsDigit(c) {
      forall i | 0 <= i < |s| ensures IsDigit(s[i]) {
        assert s[i] in s;
      }
    }
  }

  /** `ParseUnsigned` accepts exactly the text of the shape `UnsignedText`. */
  lemma ParseUnsignedAccepts(b: string)
    ensures ParseUnsigned(b).Some? <==> UnsignedText(b)
  {
    if '.' in b {
      var k := Sequences.FirstIndex(b, '.');
      var whole, fraction := b[..k], b[k + 1..];
      var rest := whole + fraction;
      assert b == whole + ['.'] + fraction;
      assert multiset(b) == multiset(rest) + multiset{'.'};
      assert |multiset(b)| == |b| && |multiset(rest)| == |rest|;
      AllDigitsMembers(rest);
      assert forall c :: c in rest ==> c in b;
      if AllDigits(rest) {
        assert '.' !in rest;
        assert forall c :: c in b ==> c in rest || c == '.';
      }
      if UnsignedText(b) {
        assert multiset(rest)['.'] == 0;
      }
    } else {
      assert multiset(b)['.'] == 0;
      AllDigitsMembers(b);
    }
  }

  /** `float()` accepts a text exactly when, stripped, it has the shape `FloatText`. */
  lemma ParseFloatAccepts(s: string)
    ensures ParseFloat(s).Some? <==> FloatText(Strip(s))
  {
    var t := Strip(s);
    if t != [] {
      ParseUnsignedAccepts(if t[0] == '-' || t[0] == '+' then t[1..] else t);
    }
  }

  /** Whitespace around the text does not matter to `float()`. */
  lemma ParseFloatIgnoresPadding(w1: string, s: string, w2: string)
    requires AllSpace(w1) && AllSpace(w2)
    ensures ParseFloat(w1 + s + w2) == ParseFloat(s)
  {
    StripIgnoresPadding(w1, s, w2);
  }

  lemma ParseUnsignedWhole(ds: string)
    requires AllDigits(ds) && |ds| >= 1
    ensures ParseUnsigned(ds) == Some(Decimal(DigitsValue(ds), 0))
  {
    assert '.' !in ds by {
      forall i | 0 <= i < |ds| ensures ds[i] != '.' {
        assert IsDigit(ds[i]);
      }
    }
  }

  /** Digits around a single '.', at least one of them, whether before or after the point. */
  lemma ParseUnsignedPointed(whole: string, fraction: string)
    requires AllDigits(whole) && AllDigits(fraction) && |whole| + |fraction| >= 1
    ensures AllDigits(whole + fraction)
    ensures ParseUnsigned(whole + "." + fraction) == Some(Decimal(DigitsValue(whole + fraction), |fraction|))
  {
    var body := whole + "." + fraction;
    var k := |whole|;
    assert body[k] == '.';
    var i := Sequences.FirstIndex(body, '.');
    assert body[..k] == whole;
    assert i == k;
    assert body[k + 1..] == fraction;
  }

  /**
   * `float()` of an optional sign, digits, a '.' and digits, with at least one
   * digit on either side of the point (".5", "-.25", "5."): the digits' value
   * scaled by the number of digits after the point, negated after a '-'.
   */
  lemma ParseFloatPointed(sign: string, whole: string, fraction: string)
    requires sign == "" || sign == "+" || sign == "-"
    requires AllDigits(whole) && AllDigits(fraction) && |whole| + |fraction| >= 1
    ensures AllDigits(whole + fraction)
    ensures var u := Decimal(DigitsValue(whole + fraction), |fraction|);
      ParseFloat(sign + whole + "." + fraction) == Some(if sign == "-" then Negate(u) else u)
  {
    var body := whole + "." + fraction;
    var s := sign + body;
    assert sign + whole + "." + fraction == s;
    ParseUnsignedPointed(whole, fraction);
    PointedShape(sign, whole, fraction, body, s);
    ParseFloatOfSigned(s, body, sign == "-", Decimal(DigitsValue(whole + fraction), |fraction|));
  }

  /** `float()` of a stripped text: its sign, if any, then the unsigned rest. */
  lemma ParseFloatOfSigned(s: string, body: string, negative: bool, u: Decimal)
    requires Strip(s) == s && |s| >= 1
    requires (if s[0] == '-' || s[0] == '+' then s[1..] else s) == body
    requires (s[0] == '-') == negative
    requires ParseUnsigned(body) == Some(u)
    ensures ParseFloat(s) == Some(if negative then Negate(u) else u)
  {
  }

  /** The pointed text is its own strip, and its sign, if any, comes first. */
  lemma PointedShape(sign: string, whole: string, fraction: string, body: string, s: string)
    requires sign == "" || sign == "+" || sign == "-"
    requires AllDigits(whole) && AllDigits(fraction)
    requires body == whole + "." + fraction && s == sign + body
    ensures Strip(s) == s && |s| >= 1
    ensures (s[0] == '-' || s[0] == '+') <==> sign != ""
    ensures s[0] == '-' <==> sign == "-"
    ensures (if s[0] == '-' || s[0] == '+' then s[1..] else s) == body
  {
    assert body[0] == '.' || IsDigit(body[0]) by {
      if whole != [] {
        assert body[0] == whole[0];
      }
    }
    assert body[|body| - 1] == '.' || IsDigit(body[|body| - 1]) by {
      if fraction != [] {
        assert body[|body| - 1] == fraction[|fraction| - 1];
      }
    }
    assert s[|s| - 1] == body[|body| - 1];
    if sign == "" {
      assert s == body;
    } else {
      assert s[0] == sign[0] && s[1..] == body;
    }
    PrintableIsStripped(s);
  }

  /** The text `FormatDecimal` writes: sign, digits, and the point when `scale > 0`. */
  lemma FormatDecimalShape(d: Decimal) returns (whole: string, fraction: string)
    ensures AllDigits(whole) && AllDigits(fraction) && |whole| >= 1 && |fraction| == d.scale
    ensures AllDigits(whole + fraction) && DigitsValue(whole + fraction) == Abs(d.units)
    ensures FormatDecimal(d)
         == (if d.units < 0 then "-" else "") + whole + (if d.scale == 0 then "" else "." + fraction)
  {
    var ds := PadZeros(NatDigits(Abs(d.units)), d.scale + 1);
    var k := |ds| - d.scale;
    whole, fraction := ds[..k], ds[k..];
    assert whole + fraction == ds;
  }

  /** Formatting a decimal and parsing the text back gives the same decimal. */
  lemma FormatParseRoundTrip(d: Decimal)
    ensures ParseFloat(FormatDecimal(d)) == Some(d)
  {
    var whole, fraction := FormatDecimalShape(d);
    ParseFormatted(d, whole, fraction, FormatDecimal(d));
  }

  /** Any text of the shape `FormatDecimal` writes parses back to its decimal. */
  lemma ParseFormatted(d: Decimal, whole: string, fraction: string, s: string)
    requires AllDigits(whole) && AllDigits(fraction) && |whole| >= 1 && |fraction| == d.scale
    requires AllDigits(whole + fraction) && DigitsValue(whole + fraction) == Abs(d.units)
    requires s == (if d.units < 0 then "-" else "") + whole + (if d.scale == 0 then "" else "." + fraction)
    ensures ParseFloat(s) == Some(d)
  {
    var body := whole + (if d.scale == 0 then "" else "." + fraction);
    var u := Decimal(Abs(d.units), d.scale);
    var signed := SignedBody(d, whole, fraction, body, s);
    ParseFormattedBody(u, whole, fraction, body);
    ParseFloatOfPrintable(s, body, u, d);
  }

  lemma ParseFormattedBody(u: Decimal, whole: string, fraction: string, body: string)
    requires AllDigits(whole) && AllDigits(fraction) && |whole| >= 1 && |fraction| == u.scale
    requires AllDigits(whole + fraction) && DigitsValue(whole + fraction) == u.units
    requires body == whole + (if u.scale == 0 then "" else "." + fraction)
    ensures ParseUnsigned(body) == Some(u)
  {
    if u.scale == 0 {
      assert fraction == [];
      assert whole + fraction == whole;
      assert body == whole;
      ParseUnsignedWhole(whole);
    } else {
      assert body == whole + "." + fraction;
      ParseUnsignedPointed(whole, fraction);
    }
  }

  /** `float()` on text that begins and ends printable: the sign, then the unsigned part. */
  lemma ParseFloatOfPrintable(s: string, body: string, u: Decimal, d: Decimal)
    requires |s| >= 1 && '!' <= s[0] <= '~' && '!' <= s[|s| - 1] <= '~'
    requires (if s[0] == '-' || s[0] == '+' then s[1..] else s) == body
    requires ParseUnsigned(body) == Some(u)
    requires u == Decimal(Abs(d.units), d.scale) && (s[0] == '-' <==> d.units < 0)
    ensures ParseFloat(s) == Some(d)
  {
    PrintableIsStripped(s);
  }

  /** The first and last characters of `FormatDecimal` are printable, and a sign is split off. */
  lemma SignedBody(d: Decimal, whole: string, fraction: string, body: string, s: string) returns (signed: bool)
    requires AllDigits(whole) && AllDigits(fraction) && |whole| >= 1 && |fraction| == d.scale
    requires body == whole + (if d.scale == 0 then "" else "." + fraction)
    requires s == (if d.units < 0 then "-" else "") + whole + (if d.scale == 0 then "" else "." + fraction)
    ensures |s| >= 1 && '!' <= s[0] <= '~' && '!' <= s[|s| - 1] <= '~'
    ensures signed == (d.units < 0)
    ensures (if s[0] == '-' || s[0] == '+' then s[1..] else s) == body
    ensures s[0] == '-' <==> d.units < 0
  {
    signed := d.units < 0;
    assert IsDigit(whole[0]);
    if d.scale == 0 {
      assert body == whole;
      assert IsDigit(whole[|whole| - 1]);
    } else {
      assert body[|body| - 1] == fraction[|fraction| - 1];
      assert IsDigit(fraction[|fraction| - 1]);
    }
    if signed {
      assert s == "-" + body;
    } else {
      assert s == body;
    }
  }

  /** `strip()` keeps a string that begins and ends with printable ASCII. */
  lemma PrintableIsStripped(s: string)
    requires |s| >= 1 && '!' <= s[0] <= '~' && '!' <= s[|s| - 1] <= '~'
    ensures Strip(s) == s
  {
    PrintableIsNotSpace(s[0]);
    PrintableIsNotSpace(s[|s| - 1]);
    assert "" + s + "" == s;
    StripOfPadded("", s, "");
  }
}
