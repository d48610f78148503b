/**
 * The JavaScript number conversions the client relies on, over amounts held
 * as whole hundredths (cents): `toFixed(2)`, `Number#toString`, `parseInt`
 * and `parseFloat` on plain decimal text.
 */
module Numbers {
  import opened Wrappers

  predicate IsDigit(c: char) { '0' <= c <= '9' }

  predicate AllDigits(s: string) { forall i :: 0 <= i < |s| ==> IsDigit(s[i]) }

  function DigitValue(c: char): nat
    requires IsDigit(c)
  {
    c as int - '0' as int
  }

  function DigitChar(d: nat): (c: char)
    requires d < 10
    ensures IsDigit(c) && DigitValue(c) == d
  {
    (d + '0' as int) as char
  }

  /** Value of a decimal digit string, most significant digit first. */
  function DigitsValue(s: string): nat
    requires AllDigits(s)
  {
    if s == [] then 0 else DigitsValue(s[..|s| - 1]) * 10 + DigitValue(s[|s| - 1])
  }

  /** The decimal digits of `n`, without leading zeros. */
  function NatDigits(n: nat): (s: string)
    ensures |s| >= 1 && AllDigits(s)
  {
    if n < 10 then [DigitChar(n)] else NatDigits(n / 10) + [DigitChar(n % 10)]
  }

  lemma {:induction false} NatDigitsValue(n: nat)
    ensures DigitsValue(NatDigits(n)) == n
  {
    if n >= 10 {
      var s := NatDigits(n);
      assert s[..|s| - 1] == NatDigits(n / 10);
      NatDigitsValue(n / 10);
    }
  }

  function Magnitude(x: int): nat { if x < 0 then -x else x }

  function SignText(x: int): string { if x < 0 then "-" else "" }

  function TwoDigits(r: nat): (s: string)
    requires r < 100
    ensures |s| == 2 && AllDigits(s)
  {
    [DigitChar(r / 10), DigitChar(r % 10)]
  }

  /** `Number#toFixed(2)` of an amount of `cents` hundredths. */
  function ToFixed2(cents: int): string {
    SignText(cents) + NatDigits(Magnitude(cents) / 100) + "." + TwoDigits(Magnitude(cents) % 100)
  }

  /** The fraction `Number#toString` prints for `r` hundredths: no trailing zeros. */
  function FractionText(r: nat): string
    requires r < 100
  {
    if r == 0 then "" else if r % 10 == 0 then "." + [DigitChar(r / 10)] else "." + TwoDigits(r)
  }

  /** `Number#toString` of an amount of `cents` hundredths. */
  function ToJsString(cents: int): string {
    SignText(cents) + NatDigits(Magnitude(cents) / 100) + FractionText(Magnitude(cents) % 100)
  }

  /** The white space `parseInt` and `parseFloat` skip before the number. */
  predicate IsSpace(c: char) { c == ' ' || c == '\t' || c == '\n' || c == '\r' }

  function TrimStart(s: string): (r: string)
    ensures r == [] || !IsSpace(r[0])
  {
    if s != [] && IsSpace(s[0]) then TrimStart(s[1..]) else s
  }

  /** The longest prefix of `s` made of digits. */
  function LeadingDigits(s: string): (r: string)
    ensures AllDigits(r) && |r| <= |s|
  {
    if s != [] && IsDigit(s[0]) then [s[0]] + LeadingDigits(s[1..]) else []
  }

  /** `LeadingDigits` is a prefix, and the character after it, if any, is not a digit. */
  lemma {:induction false} LeadingDigitsSpec(s: string)
    ensures var r := LeadingDigits(s);
      r == s[..|r|] && (|r| < |s| ==> !IsDigit(s[|r|]))
  {
    if s != [] && IsDigit(s[0]) {
      LeadingDigitsSpec(s[1..]);
      var r := LeadingDigits(s);
      assert r == [s[0]] + LeadingDigits(s[1..]);
      assert s[1..][..|r| - 1] == s[1..|r|];
    }
  }

  /** An optional sign: whether it was `-`, and the text after it. */
  function SplitSign(s: string): (bool, string) {
    if s != [] && s[0] == '-' then (true, s[1..])
    else if s != [] && s[0] == '+' then (false, s[1..])
    else (false, s)
  }

  function ApplySign(negative: bool, v: int): int { if negative then -v else v }

  /** `parseInt(s)` (radix 10) in hundredths; `None` is `NaN`. */
  function ParseInt(s: string): Option<int> {
    var signed := SplitSign(TrimStart(s));
    ReadInt(signed.0, signed.1)
  }

  /** The whole units at the start of `body`, with the sign applied. */
  function ReadInt(negative: bool, body: string): Option<int> {
    var whole := LeadingDigits(body);
    if whole == [] then None else Some(ApplySign(negative, DigitsValue(whole) * 100))
  }

  /** Hundredths given by the first two digits of a fraction. */
  function FractionCents(f: string): (c: nat)
    requires AllDigits(f)
    ensures c < 100
  {
    (if |f| >= 1 then DigitValue(f[0]) * 10 else 0) + (if |f| >= 2 then DigitValue(f[1]) else 0)
  }

  /** The digits after the point, when `rest` starts with one. */
  function FractionDigits(rest: string): (f: string)
    ensures AllDigits(f)
  {
    if rest != [] && rest[0] == '.' then LeadingDigits(rest[1..]) else []
  }

  /** `parseFloat(s)` in hundredths (digits past the hundredths dropped); `None` is `NaN`. */
  function ParseFloat(s: string): Option<int> {
    var signed := SplitSign(TrimStart(s));
    ReadFloat(signed.0, signed.1)
  }

  /** The whole units and the hundredths at the start of `body`, with the sign applied. */
  function ReadFloat(negative: bool, body: string): Option<int> {
    var whole := LeadingDigits(body);
    var frac := FractionDigits(body[|whole|..]);
    if whole == [] && frac == [] then None
    else Some(ApplySign(negative, DigitsValue(whole) * 100 + FractionCents(frac)))
  }

  /** Whole units of `cents`, truncated toward zero, in hundredths. */
  function TruncateToUnits(cents: int): int {
    ApplySign(cents < 0, Magnitude(cents) / 100 * 100)
  }

  lemma {:induction false} LeadingDigitsOf(d: string, rest: string)
    requires AllDigits(d)
    requires rest == [] || !IsDigit(rest[0])
    ensures LeadingDigits(d + rest) == d
  {
    if d == [] {
      assert d + rest == rest;
    } else {
      assert (d + rest)[1..] == d[1..] + rest;
      LeadingDigitsOf(d[1..], rest);
    }
  }

  /** Text that starts with a sign or a digit has no leading white space; the sign is read off. */
  lemma ReadSign(negative: bool, body: string)
    requires body != [] && IsDigit(body[0])
    ensures var s := (if negative then "-" else "") + body;
      TrimStart(s) == s && SplitSign(s) == (negative, body)
  {
    var s := (if negative then "-" else "") + body;
    assert !IsSpace(body[0]) && body[0] != '-' && body[0] != '+';
    if negative {
      assert s[0] == '-';
      assert s[1..] == body;
    } else {
      assert s == body;
    }
  }

  /** `parseInt` skips nothing and reads the sign off text that starts with a sign or a digit. */
  lemma ParseIntSigned(negative: bool, body: string)
    requires body != [] && IsDigit(body[0])
    ensures ParseInt((if negative then "-" else "") + body) == ReadInt(negative, body)
  {
    ReadSign(negative, body);
  }

  /** `parseFloat` skips nothing and reads the sign off text that starts with a sign or a digit. */
  lemma ParseFloatSigned(negative: bool, body: string)
    requires body != [] && IsDigit(body[0])
    ensures ParseFloat((if negative then "-" else "") + body) == ReadFloat(negative, body)
  {
    ReadSign(negative, body);
  }

  /** A body whose leading digits are `d`: `parseInt` reads them as the units. */
  lemma ReadIntWhole(negative: bool, body: string, d: string)
    requires d != [] && LeadingDigits(body) == d
    ensures ReadInt(negative, body) == Some(ApplySign(negative, DigitsValue(d) * 100))
  {
  }

  /** A body whose leading digits are `d`: `parseFloat` reads them as the units, what follows as the fraction. */
  lemma ReadFloatWhole(negative: bool, body: string, d: string, c: nat)
    requires d != [] && LeadingDigits(body) == d
    requires FractionCents(FractionDigits(body[|d|..])) == c
    ensures ReadFloat(negative, body) == Some(ApplySign(negative, DigitsValue(d) * 100 + c))
  {
  }

  /** `parseInt` of `sign digits tail` with a tail that does not start with a digit: the digits are the units. */
  lemma ParseIntNumber(negative: bool, d: string, tail: string)
    requires d != [] && AllDigits(d)
    requires tail == [] || !IsDigit(tail[0])
    ensures ParseInt((if negative then "-" else "") + d + tail) == Some(ApplySign(negative, DigitsValue(d) * 100))
  {
    var sign := if negative then "-" else "";
    var body := d + tail;
    assert sign + d + tail == sign + body;
    LeadingDigitsOf(d, tail);
    ReadIntWhole(negative, body, d);
    assert body[0] == d[0];
    ParseIntSigned(negative, body);
  }

  /**
   * `parseFloat` of `sign digits tail` with a tail that does not start with a
   * digit: the digits are the units and the tail spells the hundredths `c`.
   */
  lemma ParseFloatNumber(negative: bool, d: string, tail: string, c: nat)
    requires d != [] && AllDigits(d)
    requires tail == [] || !IsDigit(tail[0])
    requires FractionCents(FractionDigits(tail)) == c
    ensures ParseFloat((if negative then "-" else "") + d + tail) == Some(ApplySign(negative, DigitsValue(d) * 100 + c))
  {
    var sign := if negative then "-" else "";
    var body := d + tail;
    assert sign + d + tail == sign + body;
    LeadingDigitsOf(d, tail);
    assert body[|d|..] == tail;
    ReadFloatWhole(negative, body, d, c);
    assert body[0] == d[0];
    ParseFloatSigned(negative, body);
  }

  lemma FractionTextCents(r: nat)
    requires r < 100
    ensures FractionDigits(FractionText(r)) == (if r == 0 then "" else if r % 10 == 0 then [DigitChar(r / 10)] else TwoDigits(r))
    ensures FractionCents(FractionDigits(FractionText(r))) == r
  {
    if r != 0 {
      var f := if r % 10 == 0 then [DigitChar(r / 10)] else TwoDigits(r);
      assert FractionText(r)[1..] == f;
      LeadingDigitsOf(f, []);
      assert f + [] == f;
    }
  }

  /** An amount is its sign applied to its whole units and its hundredths. */
  lemma SignedParts(cents: int)
    ensures ApplySign(cents < 0, Magnitude(cents) / 100 * 100 + Magnitude(cents) % 100) == cents
  {
  }

  lemma PointThen(f: string)
    requires AllDigits(f)
    ensures FractionDigits("." + f) == f
  {
    assert ("." + f)[1..] == f + [];
    LeadingDigitsOf(f, []);
  }

  /** `parseFloat` of an amount's sign and units followed by a tail spelling its hundredths. */
  lemma ParseFloatOfParts(cents: int, tail: string)
    requires tail == [] || !IsDigit(tail[0])
    requires FractionCents(FractionDigits(tail)) == Magnitude(cents) % 100
    ensures ParseFloat((if cents < 0 then "-" else "") + NatDigits(Magnitude(cents) / 100) + tail) == Some(cents)
  {
    var m := Magnitude(cents);
    NatDigitsValue(m / 100);
    ParseFloatNumber(cents < 0, NatDigits(m / 100), tail, m % 100);
    SignedParts(cents);
  }

  /** `parseFloat` reads back exactly what `toFixed(2)` printed. */
  lemma ParseFloatToFixed2(cents: int)
    ensures ParseFloat(ToFixed2(cents)) == Some(cents)
  {
    var m := Magnitude(cents);
    var tail := "." + TwoDigits(m % 100);
    assert ToFixed2(cents) == (if cents < 0 then "-" else "") + NatDigits(m / 100) + tail;
    PointThen(TwoDigits(m % 100));
    ParseFloatOfParts(cents, tail);
  }

  /** `parseFloat` reads back exactly what `Number#toString` printed. */
  lemma ParseFloatToJsString(cents: int)
    ensures ParseFloat(ToJsString(cents)) == Some(cents)
  {
    var m := Magnitude(cents);
    assert ToJsString(cents) == (if cents < 0 then "-" else "") + NatDigits(m / 100) + FractionText(m % 100);
    FractionTextCents(m % 100);
    ParseFloatOfParts(cents, FractionText(m % 100));
  }

  /** `parseInt` of a `toFixed(2)` text keeps the whole units and drops the fraction. */
  lemma ParseIntToFixed2(cents: int)
    ensures ParseInt(ToFixed2(cents)) == Some(TruncateToUnits(cents))
  {
    var m := Magnitude(cents);
    var w, r := m / 100, m % 100;
    var tail := "." + TwoDigits(r);
    assert ToFixed2(cents) == (if cents < 0 then "-" else "") + NatDigits(w) + tail;
    NatDigitsValue(w);
    ParseIntNumber(cents < 0, NatDigits(w), tail);
  }

  /** `toFixed(2)` always prints one point followed by exactly two digits. */
  lemma ToFixed2Shape(cents: int)
    ensures var t := ToFixed2(cents);
      && |t| >= 4 && t[|t| - 3] == '.' && IsDigit(t[|t| - 2]) && IsDigit(t[|t| - 1])
      && '.' !in t[..|t| - 3]
  {
    var t := ToFixed2(cents);
    var head := SignText(cents) + NatDigits(Magnitude(cents) / 100);
    assert t == head + "." + TwoDigits(Magnitude(cents) % 100);
    assert t[..|t| - 3] == head;
    assert forall i :: 0 <= i < |head| ==> head[i] != '.';
  }

  /** `Number#toString` prints a point exactly when the amount is not a whole number of units. */
  lemma ToJsStringPoint(cents: int)
    ensures '.' in ToJsString(cents) <==> cents % 100 != 0
  {
    var m := Magnitude(cents);
    var head := SignText(cents) + NatDigits(m / 100);
    var t := ToJsString(cents);
    assert t == head + FractionText(m % 100);
    assert forall i :: 0 <= i < |head| ==> head[i] != '.';
    if m % 100 != 0 {
      assert t[|head|] == '.';
    } else {
      assert t == head;
    }
    assert cents < 0 ==> (cents % 100 == 0 <==> (-cents) % 100 == 0);
  }

  /** The digit strings `a.f` that the entry form parses (no sign, no exponent). */
  predicate IsPlainDecimal(a: string, f: string) {
    a != [] && AllDigits(a) && AllDigits(f)
  }

  /** `parseInt("a.f")` keeps the whole part: `12.50` gives 12 units. */
  lemma ParseIntDropsFraction(a: string, f: string)
    requires IsPlainDecimal(a, f)
    ensures ParseInt(a + "." + f) == Some(DigitsValue(a) * 100)
  {
    assert a + "." + f == "" + a + ("." + f);
    ParseIntNumber(false, a, "." + f);
  }

  /** `parseFloat("a.f")` keeps the whole part and the hundredths: `12.50` gives 12.50 units. */
  lemma ParseFloatKeepsFraction(a: string, f: string)
    requires IsPlainDecimal(a, f)
    ensures ParseFloat(a + "." + f) == Some(DigitsValue(a) * 100 + FractionCents(f))
  {
    assert a + "." + f == "" + a + ("." + f);
    PointThen(f);
    ParseFloatNumber(false, a, "." + f, FractionCents(f));
  }
}
