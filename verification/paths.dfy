/**
 * Field paths such as `medicalPlans[0].rateTiers[1].monthlyPremium`: the
 * strings the submission validator attaches to its findings and the form
 * uses to look them up.
 *
 * A path is built from segments and rendered to text; `Parse` reads the
 * text back, so two well-formed paths render to the same text only when
 * they are equal.
 */
module Paths {
  import opened Options
  import opened JsText
  import opened Numbers

  datatype Seg = Key(name: string) | Index(i: nat)

  type Path = seq<Seg>

  predicate IsPathMark(c: char) { c == '.' || c == '[' || c == ']' }

  /** A property name that can be told apart from the punctuation around it. */
  predicate KeyOk(name: string) {
    |name| > 0 && forall k :: 0 <= k < |name| ==> !IsPathMark(name[k])
  }

  /** Property names that `KeyOk` accepts; a constant of this type is
      checked once, where it is declared. */
  type Name = s: string | KeyOk(s) witness "a"

  predicate WellFormed(p: Path) {
    forall k :: 0 <= k < |p| ==> p[k].Key? ==> KeyOk(p[k].name)
  }

  lemma WellFormedConcat(a: Path, b: Path)
    ensures WellFormed(a + b) <==> WellFormed(a) && WellFormed(b)
  {
    if WellFormed(a) && WellFormed(b) {
      forall k | 0 <= k < |a + b| && (a + b)[k].Key? ensures KeyOk((a + b)[k].name) {
        if k >= |a| { assert (a + b)[k] == b[k - |a|]; }
      }
    }
    if WellFormed(a + b) {
      forall k | 0 <= k < |a| && a[k].Key? ensures KeyOk(a[k].name) {
        assert (a + b)[k] == a[k];
      }
      forall k | 0 <= k < |b| && b[k].Key? ensures KeyOk(b[k].name) {
        assert (a + b)[|a| + k] == b[k];
      }
    }
  }

  function SegText(seg: Seg, first: bool): string {
    match seg
    case Key(name) => if first then name else "." + name
    case Index(i) => "[" + NatToString(i) + "]"
  }

  function RenderFrom(p: Path, first: bool): string {
    if |p| == 0 then "" else SegText(p[0], first) + RenderFrom(p[1..], false)
  }

  /** The text of a path: a leading property name bare, later ones after a
      `.`, indices in brackets. */
  function Render(p: Path): string {
    RenderFrom(p, true)
  }

  /** The longest prefix of `s` free of `.`, `[` and `]`. */
  function KeyPrefix(s: string): (r: string)
    ensures |r| <= |s|
  {
    if |s| == 0 || IsPathMark(s[0]) then "" else [s[0]] + KeyPrefix(s[1..])
  }

  /** Reads the text of a path back into its segments; `None` when the text
      is not the rendering of any well-formed path. `first` tells whether a
      bare property name may start the text. */
  function ParseFrom(s: string, first: bool): (r: Option<Path>)
    decreases |s|
  {
    if |s| == 0 then Some([])
    else if s[0] == '[' then
      if ']' !in s[1..] then None
      else
        var j := IndexOf(s[1..], ']');
        var digits := s[1..1 + j];
        if |digits| > 0 && AllDigits(digits) then
          var rest := ParseFrom(s[j + 2..], false);
          if rest.None? then None else Some([Index(DigitsValue(digits))] + rest.value)
        else None
    else if s[0] == '.' && !first then
      var name := KeyPrefix(s[1..]);
      if |name| == 0 then None
      else
        var rest := ParseFrom(s[1 + |name|..], false);
        if rest.None? then None else Some([Key(name)] + rest.value)
    else if first then
      var name := KeyPrefix(s);
      if |name| == 0 then None
      else
        var rest := ParseFrom(s[|name|..], false);
        if rest.None? then None else Some([Key(name)] + rest.value)
    else None
  }

  function Parse(s: string): Option<Path> {
    ParseFrom(s, true)
  }

  lemma {:induction false} KeyPrefixOfKey(name: string, rest: string)
    requires forall k :: 0 <= k < |name| ==> !IsPathMark(name[k])
    requires |rest| == 0 || IsPathMark(rest[0])
    ensures KeyPrefix(name + rest) == name
    decreases |name|
  {
    var t := name + rest;
    if |name| == 0 {
      assert t == rest;
    } else {
      assert t[0] == name[0] && !IsPathMark(t[0]);
      assert t[1..] == name[1..] + rest;
      KeyPrefixOfKey(name[1..], rest);
      assert [name[0]] + name[1..] == name;
    }
  }

  lemma RenderFromStart(p: Path)
    ensures var s := RenderFrom(p, false); |s| == 0 || s[0] == '.' || s[0] == '['
  {
  }

  lemma NoCloseInNumeral(i: nat)
    ensures ']' !in NatToString(i)
  {
  }

  /** Parsing the text of a well-formed path gives the path back. */
  lemma {:induction false} ParseRenderFrom(p: Path, first: bool)
    requires WellFormed(p)
    ensures ParseFrom(RenderFrom(p, first), first) == Some(p)
    decreases |p|
  {
    if |p| > 0 {
      var tail := p[1..];
      assert WellFormed(tail) by {
        forall k | 0 <= k < |tail| && tail[k].Key? ensures KeyOk(tail[k].name) {
          assert tail[k] == p[k + 1];
        }
      }
      ParseRenderFrom(tail, false);
      RenderFromStart(tail);
      assert [p[0]] + tail == p;
      if p[0].Index? {
        ParseIndexStep(p[0].i, RenderFrom(tail, false));
      } else {
        assert KeyOk(p[0].name);
        ParseKeyStep(p[0].name, RenderFrom(tail, false), first);
      }
    }
  }

  lemma ParseIndexStep(i: nat, rest: string)
    ensures ParseFrom(SegText(Index(i), false) + rest, false) ==
      (var r := ParseFrom(rest, false); if r.None? then None else Some([Index(i)] + r.value))
    ensures ParseFrom(SegText(Index(i), true) + rest, true) ==
      (var r := ParseFrom(rest, false); if r.None? then None else Some([Index(i)] + r.value))
  {
    var n := NatToString(i);
    var s := "[" + n + "]" + rest;
    NoCloseInNumeral(i);
    assert s[1..] == n + "]" + rest;
    assert s[1..][|n|] == ']';
    assert s[1..][..|n|] == n;
    assert IndexOf(s[1..], ']') == |n|;
    assert s[1..1 + |n|] == n;
    assert s[|n| + 2..] == rest;
    DigitsValueOfNatToString(i);
  }

  lemma ParseKeyStep(name: string, rest: string, first: bool)
    requires KeyOk(name)
    requires |rest| == 0 || rest[0] == '.' || rest[0] == '['
    ensures ParseFrom(SegText(Key(name), first) + rest, first) ==
      (var r := ParseFrom(rest, false); if r.None? then None else Some([Key(name)] + r.value))
  {
    KeyPrefixOfKey(name, rest);
    if first { ParseLeadingKey(name, rest); } else { ParseDottedKey(name, rest); }
  }

  lemma ParseLeadingKey(name: string, rest: string)
    requires KeyOk(name) && KeyPrefix(name + rest) == name
    ensures ParseFrom(name + rest, true) ==
      (var r := ParseFrom(rest, false); if r.None? then None else Some([Key(name)] + r.value))
  {
    var s := name + rest;
    assert s[0] == name[0] && !IsPathMark(s[0]);
    assert s[|name|..] == rest;
  }

  lemma ParseDottedKey(name: string, rest: string)
    requires KeyOk(name) && KeyPrefix(name + rest) == name
    ensures ParseFrom("." + name + rest, false) ==
      (var r := ParseFrom(rest, false); if r.None? then None else Some([Key(name)] + r.value))
  {
    var s := "." + name + rest;
    assert s[0] == '.';
    assert s[1..] == name + rest;
    assert s[1 + |name|..] == rest;
  }

  lemma ParseRender(p: Path)
    requires WellFormed(p)
    ensures Parse(Render(p)) == Some(p)
  {
    ParseRenderFrom(p, true);
  }

  /** Distinct well-formed paths have distinct texts. */
  lemma RenderInjective(p: Path, q: Path)
    requires WellFormed(p) && WellFormed(q) && Render(p) == Render(q)
    ensures p == q
  {
    ParseRender(p);
    ParseRender(q);
  }
}
