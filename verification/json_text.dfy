/**
 * `JSON.stringify(value, null, 2)` on the values the survey summary shows:
 * strings quoted and escaped as section 25.5.2.3 (QuoteJSONString) of
 * ECMA-262 prescribes, arrays and objects laid out one member per line with
 * two more spaces of indentation per level, and the reading of a JSON
 * string back as section 9 of ECMA-404 describes it.
 *
 * Characters are Unicode scalar values, so the lone surrogates that
 * JavaScript strings may hold (and that the standard writes as `\u` escapes)
 * do not arise.
 */
module JsonText {
  import opened Options
  import opened Numbers
  import opened JsText
  import opened Values

  /** The indentation step that the argument `2` selects. */
  const Gap: string := "  "

  /** A lower-case hexadecimal digit. */
  function HexDigit(d: nat): (c: char)
    requires d < 16
    ensures IsHex(c)
  {
    if d < 10 then ('0' as int + d) as char else ('a' as int + d - 10) as char
  }

  predicate IsHex(c: char) {
    '0' <= c <= '9' || 'a' <= c <= 'f' || 'A' <= c <= 'F'
  }

  function HexValue(c: char): (d: nat)
    requires IsHex(c)
    ensures d < 16
  {
    if '0' <= c <= '9' then c as int - '0' as int
    else if 'a' <= c <= 'f' then c as int - 'a' as int + 10
    else c as int - 'A' as int + 10
  }

  /** How one character is written inside a JSON string: the seven
      characters with a short escape take it, the other control characters
      a `\u00XX` escape, and everything else stands for itself. */
  function EscapeChar(c: char): (r: string)
    ensures |r| > 0
  {
    if c == '"' then "\\\""
    else if c == '\\' then "\\\\"
    else if c == '\U{8}' then "\\b"
    else if c == '\t' then "\\t"
    else if c == '\n' then "\\n"
    else if c == '\U{C}' then "\\f"
    else if c == '\r' then "\\r"
    else if c as int < 0x20 then "\\u00" + [HexDigit(c as int / 16), HexDigit(c as int % 16)]
    else [c]
  }

  function Escape(s: string): (r: string)
    ensures |r| >= |s|
  {
    if |s| == 0 then "" else EscapeChar(s[0]) + Escape(s[1..])
  }

  /** `QuoteJSONString`. */
  function Quote(s: string): (r: string)
    ensures |r| >= 2 && r[0] == '"' && r[|r| - 1] == '"'
  {
    "\"" + Escape(s) + "\""
  }

  // Reading a JSON string back.

  /** The character a one-letter escape stands for. */
  function ShortEscape(c: char): (r: Option<char>) {
    match c
    case '"' => Some('"')
    case '\\' => Some('\\')
    case '/' => Some('/')
    case 'b' => Some('\U{8}')
    case 'f' => Some('\U{C}')
    case 'n' => Some('\n')
    case 'r' => Some('\r')
    case 't' => Some('\t')
    case _ => None
  }

  function Prepend(c: char, r: Option<string>): (p: Option<string>)
    ensures p.Some? <==> r.Some?
    ensures p.Some? ==> p.value == [c] + r.value
  {
    if r.None? then None else Some([c] + r.value)
  }

  /** The value of four hexadecimal digits. */
  function Hex4(t: string): (n: nat)
    requires |t| == 4 && IsHex(t[0]) && IsHex(t[1]) && IsHex(t[2]) && IsHex(t[3])
    ensures n < 0x10000
  {
    ((HexValue(t[0]) * 16 + HexValue(t[1])) * 16 + HexValue(t[2])) * 16 + HexValue(t[3])
  }

  /** The characters the body of a JSON string stands for, or `None` when
      the body is not well formed: a raw quote or control character, or a
      backslash not starting an escape. A `\u` escape of a surrogate (half
      of a pair) is not read. */
  function Unescape(t: string): (r: Option<string>)
    decreases |t|
  {
    if |t| == 0 then Some("")
    else if t[0] == '\\' then
      if |t| >= 2 && ShortEscape(t[1]).Some? then Prepend(ShortEscape(t[1]).value, Unescape(t[2..]))
      else if |t| >= 6 && t[1] == 'u' && IsHex(t[2]) && IsHex(t[3]) && IsHex(t[4]) && IsHex(t[5]) then
        var n := Hex4(t[2..6]);
        if n < 0xD800 || 0xE000 <= n then Prepend(n as char, Unescape(t[6..])) else None
      else None
    else if t[0] == '"' || t[0] as int < 0x20 then None
    else Prepend(t[0], Unescape(t[1..]))
  }

  /** A JSON string token read back. */
  function Unquote(t: string): (r: Option<string>) {
    if |t| >= 2 && t[0] == '"' && t[|t| - 1] == '"' then Unescape(t[1..|t| - 1]) else None
  }

  lemma HexRoundTrip(d: nat)
    requires d < 16
    ensures HexValue(HexDigit(d)) == d
  {
  }

  /** Reading one escaped character gives the character back. */
  lemma UnescapeOne(c: char, rest: string)
    ensures Unescape(EscapeChar(c) + rest) == Prepend(c, Unescape(rest))
  {
    var t := EscapeChar(c) + rest;
    if c == '"' || c == '\\' || c == '\U{8}' || c == '\t' || c == '\n' || c == '\U{C}' || c == '\r' {
      assert t[2..] == rest;
    } else if c as int < 0x20 {
      var hi, lo := c as int / 16, c as int % 16;
      assert t[2..6] == ['0', '0', HexDigit(hi), HexDigit(lo)];
      HexRoundTrip(hi);
      HexRoundTrip(lo);
      assert Hex4(t[2..6]) == c as int;
      assert t[6..] == rest;
    } else {
      assert t[1..] == rest;
    }
  }

  /** Escaping loses nothing: the escaped text reads back as the string. */
  lemma {:induction false} UnescapeEscape(s: string)
    ensures Unescape(Escape(s)) == Some(s)
  {
    if |s| > 0 {
      UnescapeEscape(s[1..]);
      UnescapeOne(s[0], Escape(s[1..]));
      assert s == [s[0]] + s[1..];
    }
  }

  /** A quoted string reads back as itself, so different strings are
      written differently. */
  lemma QuoteRoundTrip(s: string)
    ensures Unquote(Quote(s)) == Some(s)
    ensures forall t :: Quote(t) == Quote(s) ==> t == s
  {
    UnescapeEscape(s);
    var q := Quote(s);
    assert q[1..|q| - 1] == Escape(s);
    forall t | Quote(t) == Quote(s)
      ensures t == s
    {
      UnescapeEscape(t);
      assert Quote(t)[1..|Quote(t)| - 1] == Escape(t);
    }
  }

  /** Escaped text holds no line break, so every line break in the output of
      `Stringify` is layout. */
  lemma {:induction false} EscapeOneLine(s: string)
    ensures '\n' !in Escape(s)
  {
    if |s| > 0 {
      EscapeOneLine(s[1..]);
      var c := s[0];
      if c as int < 0x20 && c != '\U{8}' && c != '\t' && c != '\n' && c != '\U{C}' && c != '\r' {
        HexDigitNotBreak(c as int / 16);
        HexDigitNotBreak(c as int % 16);
      }
    }
  }

  lemma HexDigitNotBreak(d: nat)
    requires d < 16
    ensures HexDigit(d) != '\n'
  {
  }

  // The serialiser.

  /** `JSON.stringify(v, null, 2)` at the nesting whose indentation is
      `indent`: scalars on one line, `NaN` and the infinities as `null`,
      empty containers as `[]` and `{}`, and otherwise one member per line,
      separated by commas, indented one step more than the closing bracket. */
  function Stringify(v: Value, indent: string): (r: string)
    ensures |r| > 0
    ensures v.Obj? ==> r[0] == '{' && r[|r| - 1] == '}'
    ensures v.Arr? ==> r[0] == '[' && r[|r| - 1] == ']'
    ensures v.Str? ==> Unquote(r) == Some(v.s)
    decreases v
  {
    match v
    case Null => "null"
    case Bool(b) => if b then "true" else "false"
    case Num(d) => DecimalToString(d)
    case NonFinite(_) => "null"
    case Str(s) =>
      QuoteRoundTrip(s);
      Quote(s)
    case Arr(items) =>
      if |items| == 0 then "[]"
      else
        var inner := indent + Gap;
        "[\n" + inner + Join(seq(|items|, i requires 0 <= i < |items| => Stringify(items[i], inner)), ",\n" + inner)
        + "\n" + indent + "]"
    case Obj(fields) =>
      if |fields| == 0 then "{}"
      else
        var inner := indent + Gap;
        "{\n" + inner + Join(seq(|fields|, i requires 0 <= i < |fields| => Quote(fields[i].0) + ": " + Stringify(fields[i].1, inner)), ",\n" + inner)
        + "\n" + indent + "}"
  }
}
