/**
 * Numbers as the application writes and reads them: the decimal numeral of
 * `String(n)`, `Number(text)` on the strings the chart code feeds it, and
 * `parseInt`.
 *
 * A JavaScript number is modelled as an exact decimal `units / 10^scale`;
 * binary floating point, overflow to `Infinity` and the exponent notation
 * `String` uses below 1e-6 and from 1e21 on are not modelled.
 */
module Numbers {
  import opened Options
  import opened JsText

  function DigitChar(d: nat): (c: char)
    requires d < 10
    ensures IsDigit(c)
  {
    ('0' as int + d) as char
  }

  function DigitValue(c: char): (d: nat)
    requires IsDigit(c)
    ensures d < 10 && DigitChar(d) == c
  {
    c as int - '0' as int
  }

  predicate AllDigits(s: string) {
    forall i :: 0 <= i < |s| ==> IsDigit(s[i])
  }

  function Pow10(k: nat): (r: nat)
    ensures r >= 1
  {
    if k == 0 then 1 else 10 * Pow10(k - 1)
  }

  /** The numeral JavaScript writes for a non-negative integer: no sign, no
      leading zero. */
  function NatToString(n: nat): (r: string)
    ensures |r| > 0 && AllDigits(r)
    ensures |r| > 1 ==> r[0] != '0'
  {
    if n < 10 then [DigitChar(n)] else NatToString(n / 10) + [DigitChar(n % 10)]
  }

  function IntToString(i: int): (r: string)
    ensures |r| > 0
  {
    if i < 0 then "-" + NatToString(-i) else NatToString(i)
  }

  /** The value of a string of decimal digits; leading zeros are allowed. */
  function DigitsValue(s: string): nat
    requires AllDigits(s)
  {
    if |s| == 0 then 0 else DigitsValue(s[..|s| - 1]) * 10 + DigitValue(s[|s| - 1])
  }

  /** Reading back the numeral of `n` gives `n`. */
  lemma {:induction false} DigitsValueOfNatToString(n: nat)
    ensures DigitsValue(NatToString(n)) == n
  {
    if n >= 10 {
      DigitsValueOfNatToString(n / 10);
      var s := NatToString(n);
      assert s[..|s| - 1] == NatToString(n / 10);
    }
  }

  /** Distinct numbers have distinct numerals. */
  lemma NatToStringInjective(a: nat, b: nat)
    requires NatToString(a) == NatToString(b)
    ensures a == b
  {
    DigitsValueOfNatToString(a);
    DigitsValueOfNatToString(b);
  }

  lemma {:induction false} DigitsValueAtLeastLead(s: string)
    requires AllDigits(s) && |s| > 0
    ensures DigitsValue(s) >= DigitValue(s[0])
    ensures |s| > 1 ==> DigitsValue(s) >= 10 * DigitValue(s[0])
  {
    if |s| > 1 {
      var p := s[..|s| - 1];
      DigitsValueAtLeastLead(p);
      assert p[0] == s[0];
    }
  }

  /** A digit string without a leading zero is the numeral of its value. */
  lemma {:induction false} NatToStringOfDigitsValue(s: string)
    requires AllDigits(s) && |s| > 0 && (|s| > 1 ==> s[0] != '0')
    ensures NatToString(DigitsValue(s)) == s
  {
    if |s| > 1 {
      var p := s[..|s| - 1];
      assert p[0] == s[0];
      NatToStringOfDigitsValue(p);
      DigitsValueAtLeastLead(s);
      assert DigitsValue(s) >= 10;
      assert s == p + [s[|s| - 1]];
    }
  }

  /** A numeral of `k` digits is below `10^k`, and conversely. */
  lemma {:induction false} NatToStringLength(n: nat, k: nat)
    requires n < Pow10(k)
    ensures |NatToString(n)| <= k || (n == 0 && k == 0)
  {
    if n >= 10 {
      assert k >= 1;
      NatToStringLength(n / 10, k - 1);
    }
  }

  function Zeros(m: nat): (z: string)
    ensures |z| == m && AllDigits(z)
  {
    if m == 0 then "" else "0" + Zeros(m - 1)
  }

  /** Leading zeros do not change the value of a digit string. */
  lemma {:induction false} DigitsValueZeros(m: nat, s: string)
    requires AllDigits(s)
    ensures DigitsValue(Zeros(m) + s) == DigitsValue(s)
  {
    if |s| == 0 {
      assert Zeros(m) + s == Zeros(m);
      ZerosValue(m);
    } else {
      var t := Zeros(m) + s;
      assert t[..|t| - 1] == Zeros(m) + s[..|s| - 1];
      DigitsValueZeros(m, s[..|s| - 1]);
    }
  }

  lemma {:induction false} ZerosValue(m: nat)
    ensures DigitsValue(Zeros(m)) == 0
  {
    if m > 0 {
      var z := Zeros(m);
      assert z[..|z| - 1] == Zeros(m - 1) by {
        assert z == "0" + Zeros(m - 1);
        if m > 1 {
          assert Zeros(m - 1) == "0" + Zeros(m - 2);
          assert z[..|z| - 1] == "0" + Zeros(m - 1)[..m - 2];
          ZerosPrefix(m - 1);
        }
      }
      ZerosValue(m - 1);
    }
  }

  lemma {:induction false} ZerosPrefix(m: nat)
    requires m >= 1
    ensures Zeros(m)[..m - 1] == Zeros(m - 1)
  {
    if m > 1 {
      ZerosPrefix(m - 1);
      assert Zeros(m)[..m - 1] == "0" + Zeros(m - 1)[..m - 2];
    }
  }

  /** The digits of `n` left-padded with zeros to width `k`, as the fraction
      part of a decimal numeral is written. */
  function PadDigits(n: nat, k: nat): (r: string)
    ensures AllDigits(r)
    ensures n < Pow10(k) && k > 0 ==> |r| == k
    ensures DigitsValue(r) == n
  {
    var s := NatToString(n);
    PadDigitsFacts(n, k);
    (if |s| < k then Zeros(k - |s|) else "") + s
  }

  lemma PadDigitsFacts(n: nat, k: nat)
    ensures var s := NatToString(n);
      DigitsValue((if |s| < k then Zeros(k - |s|) else "") + s) == n
    ensures var s := NatToString(n);
      n < Pow10(k) && k > 0 ==> |(if |s| < k then Zeros(k - |s|) else "") + s| == k
  {
    var s := NatToString(n);
    DigitsValueOfNatToString(n);
    DigitsValueZeros(if |s| < k then k - |s| else 0, s);
    assert Zeros(0) + s == s;
    if n < Pow10(k) && k > 0 { NatToStringLength(n, k); }
  }

  /** An exact decimal number `units / 10^scale`. */
  datatype Decimal = Decimal(units: int, scale: nat)

  function Abs(i: int): nat { if i < 0 then -i else i }

  function ToReal(d: Decimal): real {
    d.units as real / Pow10(d.scale) as real
  }

  /** The same number with trailing zero digits of the fraction removed. */
  function Normalize(d: Decimal): (n: Decimal)
    ensures ToReal(n) == ToReal(d)
    ensures n.scale == 0 || n.units % 10 != 0
    decreases d.scale
  {
    if d.scale > 0 && d.units % 10 == 0 then
      var n := Decimal(d.units / 10, d.scale - 1);
      assert ToReal(n) == ToReal(d) by {
        assert d.units == 10 * (d.units / 10);
        assert Pow10(d.scale) == 10 * Pow10(d.scale - 1);
      }
      Normalize(n)
    else d
  }

  /** `String(x)` for a number in plain (non-exponent) notation: optional
      minus sign, whole part, and a fraction part without trailing zeros. */
  function DecimalToString(d: Decimal): (r: string)
    ensures |r| > 0
  {
    var n := Normalize(d);
    (if n.units < 0 then "-" else "") + MagnitudeText(Abs(n.units), n.scale)
  }

  /** The unsigned numeral of `mag / 10^scale`: whole part, then a point and
      exactly `scale` fraction digits when `scale` is positive. */
  function MagnitudeText(mag: nat, scale: nat): (r: string)
    ensures |r| > 0 && IsDigit(r[0])
  {
    var whole := NatToString(Quot(mag, Pow10(scale)));
    if scale == 0 then whole
    else whole + "." + PadDigits(Rem(mag, Pow10(scale)), scale)
  }

  function Quot(a: nat, b: nat): nat
    requires b > 0
  {
    a / b
  }

  function Rem(a: nat, b: nat): (r: nat)
    requires b > 0
    ensures r < b
  {
    a % b
  }

  /** The position of the first `c` in `s`. */
  function IndexOf(s: string, c: char): (i: nat)
    requires c in s
    ensures i < |s| && s[i] == c && c !in s[..i]
  {
    if s[0] == c then 0 else 1 + IndexOf(s[1..], c)
  }

  /** The value of `whole` digits followed by `frac` digits after a point. */
  function DecimalValue(whole: string, frac: string): real
    requires AllDigits(whole) && AllDigits(frac)
  {
    DigitsValue(whole) as real + DigitsValue(frac) as real / Pow10(|frac|) as real
  }

  /** `Number(s)` for a non-empty string made only of digits, `.` and `-`
      (the strings the chart code produces): an optional leading minus,
      digits with at most one point and at least one digit. Anything else,
      such as `-`, `.`, `1-2` or `1.2.3`, is `NaN`, here `None`. */
  function ParseNumberLiteral(s: string): (r: Option<real>)
    ensures r.Some? ==> |s| > 0
  {
    if |s| > 0 && s[0] == '-' then
      var mag := ParseUnsigned(s[1..]);
      if mag.Some? then Some(-mag.value) else None
    else ParseUnsigned(s)
  }

  /** The unsigned part of a numeric literal: digits with at most one point
      and at least one digit. */
  function ParseUnsigned(body: string): (r: Option<real>)
    ensures r.Some? ==> |body| > 0
  {
    if '.' in body then
      var i := IndexOf(body, '.');
      if AllDigits(body[..i]) && AllDigits(body[i + 1..]) && |body| > 1
      then Some(DecimalValue(body[..i], body[i + 1..]))
      else None
    else if AllDigits(body) && |body| > 0 then Some(DigitsValue(body) as real)
    else None
  }

  lemma DivModReal(mag: nat, p: nat)
    requires p >= 1
    ensures Quot(mag, p) as real + Rem(mag, p) as real / p as real == mag as real / p as real
  {
    assert mag == (mag / p) * p + mag % p;
    assert mag as real == (mag / p) as real * p as real + (mag % p) as real;
  }

  /** Reading back the numeral of a decimal with `Number` gives its value:
      `Number(String(x)) == x` for plain-notation numbers. */
  lemma DecimalRoundTrip(d: Decimal)
    ensures ParseNumberLiteral(DecimalToString(d)) == Some(ToReal(d))
  {
    var n := Normalize(d);
    var mag := Abs(n.units);
    var body := MagnitudeText(mag, n.scale);
    ParseMagnitude(mag, n.scale);
    if n.units < 0 {
      ParseNegative(body);
      NegatedValue(n);
    } else {
      assert DecimalToString(d) == body;
    }
  }

  lemma ParseNegative(body: string)
    requires |body| > 0 && IsDigit(body[0]) && ParseUnsigned(body).Some?
    ensures ParseNumberLiteral("-" + body) == Some(-ParseUnsigned(body).value)
  {
    assert ("-" + body)[1..] == body;
  }

  lemma NegatedValue(n: Decimal)
    requires n.units < 0
    ensures ToReal(n) == -(Abs(n.units) as real / Pow10(n.scale) as real)
  {
  }

  lemma ParseMagnitude(mag: nat, scale: nat)
    ensures ParseUnsigned(MagnitudeText(mag, scale)) == Some(mag as real / Pow10(scale) as real)
  {
    if scale == 0 { ParseWholeMagnitude(mag, scale); } else { ParseFractionMagnitude(mag, scale); }
  }

  lemma ParseWholeMagnitude(mag: nat, scale: nat)
    requires scale == 0
    ensures ParseUnsigned(MagnitudeText(mag, scale)) == Some(mag as real / Pow10(scale) as real)
  {
    var p := Pow10(scale);
    var wholeText := NatToString(Quot(mag, p));
    DigitsValueOfNatToString(Quot(mag, p));
    assert p == 1 && Quot(mag, p) == mag;
    ParseDigits(wholeText);
    assert mag as real / p as real == mag as real;
  }

  lemma ParseFractionMagnitude(mag: nat, scale: nat)
    requires scale > 0
    ensures ParseUnsigned(MagnitudeText(mag, scale)) == Some(mag as real / Pow10(scale) as real)
  {
    var p := Pow10(scale);
    var wholeText := NatToString(Quot(mag, p));
    var fracText := PadDigits(Rem(mag, p), scale);
    ParsePointed(wholeText, fracText);
    FractionValue(mag, scale);
  }

  lemma FractionValue(mag: nat, scale: nat)
    requires scale > 0
    ensures DecimalValue(NatToString(Quot(mag, Pow10(scale))), PadDigits(Rem(mag, Pow10(scale)), scale))
            == mag as real / Pow10(scale) as real
  {
    var p := Pow10(scale);
    var q := Quot(mag, p);
    var r := Rem(mag, p);
    DigitsValueOfNatToString(q);
    var fracText := PadDigits(r, scale);
    assert |fracText| == scale && DigitsValue(fracText) == r;
    DivModReal(mag, p);
  }

  lemma ParseDigits(w: string)
    requires AllDigits(w) && |w| > 0
    ensures ParseUnsigned(w) == Some(DigitsValue(w) as real)
  {
  }

  lemma ParsePointed(w: string, f: string)
    requires AllDigits(w) && AllDigits(f) && |w| > 0
    ensures ParseUnsigned(w + "." + f) == Some(DecimalValue(w, f))
  {
    var body := w + "." + f;
    assert body[|w|] == '.';
    assert body[..|w|] == w;
    assert IndexOf(body, '.') == |w|;
    assert body[|w| + 1..] == f;
  }

  function HexDigitValue(c: char): Option<nat> {
    if IsDigit(c) then Some(DigitValue(c))
    else if 'a' <= c <= 'f' then Some(c as int - 'a' as int + 10)
    else if 'A' <= c <= 'F' then Some(c as int - 'A' as int + 10)
    else None
  }

  /** The value of the longest prefix of `s` made of digits of `radix`
      (10 or 16), paired with its length. */
  function DigitPrefix(s: string, radix: nat, acc: nat, len: nat): (r: (nat, nat))
    requires radix == 10 || radix == 16
    ensures r.1 >= len
    decreases |s|
  {
    var d := if |s| == 0 then None
             else if radix == 10 then (if IsDigit(s[0]) then Some(DigitValue(s[0])) else None)
             else HexDigitValue(s[0]);
    if |s| == 0 || d.None? then (acc, len)
    else DigitPrefix(s[1..], radix, acc * radix + d.value, len + 1)
  }

  /** `parseInt(s, 10)` when `hex` is false, and `parseInt(s)` when it is
      true (which also reads a `0x`/`0X` prefix as hexadecimal). Leading white
      space is skipped, an optional sign read, then the longest run of digits;
      no digits at all is `NaN`, here `None`. */
  function ParseInt(s: string, hex: bool): (r: Option<int>)
    ensures r.Some? ==> exists i :: 0 <= i < |s| && (IsDigit(s[i]))
  {
    var t := TrimStart(s);
    var neg := |t| > 0 && t[0] == '-';
    var body := if |t| > 0 && (t[0] == '-' || t[0] == '+') then t[1..] else t;
    var isHex := hex && |body| >= 2 && body[0] == '0' && (body[1] == 'x' || body[1] == 'X');
    var p := if isHex then DigitPrefix(body[2..], 16, 0, 0) else DigitPrefix(body, 10, 0, 0);
    if p.1 == 0 then None
    else Some(if neg then -(p.0 as int) else p.0 as int)
  }

  /** Reading decimal digits one at a time accumulates the value of the
      digits read so far. */
  lemma {:induction false} DigitPrefixDecimal(t: string, s: string, len: nat)
    requires AllDigits(t) && AllDigits(s)
    ensures DigitPrefix(s, 10, DigitsValue(t), len) == (DigitsValue(t + s), len + |s|)
    decreases |s|
  {
    if |s| == 0 {
      assert t + s == t;
    } else {
      var t' := t + [s[0]];
      assert t'[..|t'| - 1] == t;
      DigitPrefixDecimal(t', s[1..], len + 1);
      assert t' + s[1..] == t + s;
    }
  }

  /** `parseInt` reads back the numeral of a non-negative integer, with or
      without an explicit radix. */
  lemma ParseIntNumeral(n: nat, hex: bool)
    ensures ParseInt(NatToString(n), hex) == Some(n)
  {
    var s := NatToString(n);
    DigitsValueOfNatToString(n);
    ParseIntDigits(s, hex);
  }

  /** `parseInt` reads a non-empty digit string as its value. */
  lemma ParseIntDigits(s: string, hex: bool)
    requires AllDigits(s) && |s| > 0
    ensures ParseInt(s, hex) == Some(DigitsValue(s))
  {
    assert !IsSpace(s[0]);
    assert TrimStart(s) == s;
    DigitPrefixDecimal("", s, 0);
    assert "" + s == s;
    if |s| > 1 { assert IsDigit(s[1]); }
  }

  /** `x.toFixed(2)` on an exact value: the sign, then the magnitude rounded
      to hundredths with ties away from zero, with exactly two fraction
      digits. */
  function ToFixed2(x: real): (r: string)
    ensures |r| >= 4 && r[|r| - 3] == '.'
  {
    var m := if x < 0.0 then -x else x;
    var n: nat := (m * 100.0 + 0.5).Floor;
    (if x < 0.0 then "-" else "") + NatToString(n / 100) + "." + PadDigits(n % 100, 2)
  }
}
