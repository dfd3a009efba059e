/**
 * How findings are shown (components/ValidationFeedback.tsx): the label
 * made from a field path, the summary box that lists the first few errors
 * and warnings, and the message under a single field.
 */
module Feedback {
  import opened Options
  import opened JsText
  import opened Numbers
  import opened Patterns
  import opened SeqUtil
  import opened Validation

  // `formatFieldName`.

  /** The length of the run of decimal digits that starts `s`. */
  function DigitRun(s: string): (n: nat)
    ensures n <= |s| && AllDigits(s[..n])
    ensures n < |s| ==> !IsDigit(s[n])
  {
    if |s| == 0 || !IsDigit(s[0]) then 0
    else
      var n := DigitRun(s[1..]);
      assert s[..n + 1] == [s[0]] + s[1..][..n];
      n + 1
  }

  /** `s.replace(/\[(\d+)\]/g, (_, num) => ` ${parseInt(num) + 1}`)`: each
      bracketed index becomes a space and the index plus one. */
  function ReplaceIndices(s: string): string
    decreases |s|
  {
    if |s| == 0 then ""
    else
      var n := DigitRun(s[1..]);
      if s[0] == '[' && n > 0 && n + 1 < |s| && s[n + 1] == ']' then
        assert s[1..][..n] == s[1..n + 1];
        " " + NatToString(DigitsValue(s[1..n + 1]) + 1) + ReplaceIndices(s[n + 2..])
      else [s[0]] + ReplaceIndices(s[1..])
  }

  /** `part.replace(/([A-Z])/g, ' $1')`: a space before every capital. */
  function SpaceUppers(s: string): (r: string)
    ensures |r| == |s| + CountUppers(s)
  {
    if |s| == 0 then "" else (if IsUpper(s[0]) then [' ', s[0]] else [s[0]]) + SpaceUppers(s[1..])
  }

  function CountUppers(s: string): nat {
    if |s| == 0 then 0 else (if IsUpper(s[0]) then 1 else 0) + CountUppers(s[1..])
  }

  /** `t.replace(/^\w/, c => c.toUpperCase())`. */
  function CapitalizeFirst(t: string): (r: string)
    ensures |r| == |t|
    ensures |t| > 0 ==> r[1..] == t[1..]
  {
    if |t| > 0 && IsWordChar(t[0]) then [UpperChar(t[0])] + t[1..] else t
  }

  /** One dot-separated part of the path, as a title: no white space at
      either end, and no lower-case letter in front. */
  function FormatPart(part: string): (r: string)
    ensures r == [] <==> AllSpace(part)
    ensures |r| > 0 ==> !IsSpace(r[0]) && !IsSpace(r[|r| - 1]) && !IsLower(r[0])
  {
    SpaceUppersBlank(part);
    CapitalizeFirst(Trim(SpaceUppers(part)))
  }

  /** The titled parts of a path, one per dot of the path and one more. */
  function Labels(path: string): (r: seq<string>)
    ensures |r| == CountChar(path, '.') + 1
  {
    DotsKept(path);
    Titles(Split(ReplaceIndices(path), '.'))
  }

  /** `parts.map(FormatPart)`. */
  function Titles(parts: seq<string>): (r: seq<string>)
    ensures |r| == |parts|
  {
    if |parts| == 0 then [] else [FormatPart(parts[0])] + Titles(parts[1..])
  }

  /** `formatFieldName`: indices made 1-based, the path split at its dots,
      each part titled, and the parts joined with ` - `. */
  function FormatFieldName(path: string): string {
    Join(Labels(path), " - ")
  }

  // Facts about the pieces.

  lemma {:induction false} DigitRunStops(d: string, t: string)
    requires AllDigits(d)
    requires |t| > 0 && !IsDigit(t[0])
    ensures DigitRun(d + t) == |d|
    decreases |d|
  {
    if |d| > 0 {
      assert (d + t)[0] == d[0];
      assert (d + t)[1..] == d[1..] + t;
      DigitRunStops(d[1..], t);
    } else {
      assert d + t == t;
    }
  }

  /** A bracketed index `[n]` becomes ` n+1`: the labels count from one. */
  lemma IndexShown(n: nat, rest: string)
    ensures ReplaceIndices("[" + NatToString(n) + "]" + rest) == " " + NatToString(n + 1) + ReplaceIndices(rest)
  {
    var d := NatToString(n);
    var s := "[" + d + "]" + rest;
    assert s[1..] == d + ("]" + rest);
    DigitRunStops(d, "]" + rest);
    assert s[1..|d| + 1] == d;
    DigitsValueOfNatToString(n);
    assert s[|d| + 2..] == rest;
  }

  /** Text without an opening bracket passes through unchanged. */
  lemma {:induction false} NoIndexKept(a: string, b: string)
    requires '[' !in a
    ensures ReplaceIndices(a + b) == a + ReplaceIndices(b)
    decreases |a|
  {
    if |a| > 0 {
      assert (a + b)[0] == a[0];
      assert (a + b)[1..] == a[1..] + b;
      NoIndexKept(a[1..], b);
    } else {
      assert a + b == b;
    }
  }

  lemma {:induction false} NoIndexSame(a: string)
    requires '[' !in a
    ensures ReplaceIndices(a) == a
    decreases |a|
  {
    if |a| > 0 {
      NoIndexSame(a[1..]);
    }
  }

  /** Characters other than `c` in front of a string do not count. */
  lemma {:induction false} CountCharSkip(s: string, k: nat, c: char)
    requires k <= |s| && c !in s[..k]
    ensures CountChar(s, c) == CountChar(s[k..], c)
    decreases k
  {
    if k > 0 {
      assert s[0] == s[..k][0];
      assert s[1..][..k - 1] == s[..k][1..];
      CountCharSkip(s[1..], k - 1, c);
      assert s[1..][k - 1..] == s[k..];
    }
  }

  /** An index `[digits]` in front holds no dot. */
  lemma IndexNoDot(s: string, n: nat)
    requires n + 1 < |s| && s[0] == '[' && s[n + 1] == ']' && AllDigits(s[1..n + 1])
    ensures CountChar(s, '.') == CountChar(s[n + 2..], '.')
  {
    var d := s[1..n + 1];
    assert forall i :: 0 <= i < |d| ==> IsDigit(d[i]);
    assert s[..n + 2] == "[" + d + "]";
    CountCharSkip(s, n + 2, '.');
  }

  /** Its replacement ` n+1` holds none either. */
  lemma NumeralNoDot(num: string, rest: string)
    requires AllDigits(num)
    ensures CountChar(" " + num + rest, '.') == CountChar(rest, '.')
  {
    var t := " " + num + rest;
    assert forall i :: 0 <= i < |num| ==> IsDigit(num[i]);
    assert t[..|num| + 1] == " " + num;
    CountCharSkip(t, |num| + 1, '.');
    assert t[|num| + 1..] == rest;
  }

  /** Rewriting the indices neither adds nor removes a dot. */
  lemma {:induction false} DotsKept(s: string)
    ensures CountChar(ReplaceIndices(s), '.') == CountChar(s, '.')
    decreases |s|
  {
    if |s| > 0 {
      var n := DigitRun(s[1..]);
      if s[0] == '[' && n > 0 && n + 1 < |s| && s[n + 1] == ']' {
        assert s[1..][..n] == s[1..n + 1];
        DotsKept(s[n + 2..]);
        NumeralNoDot(NatToString(DigitsValue(s[1..n + 1]) + 1), ReplaceIndices(s[n + 2..]));
        IndexNoDot(s, n);
      } else {
        DotsKept(s[1..]);
        assert ReplaceIndices(s)[1..] == ReplaceIndices(s[1..]);
      }
    }
  }

  /** A space before each capital leaves a string all white space exactly
      when it was. */
  lemma {:induction false} SpaceUppersBlank(s: string)
    ensures AllSpace(SpaceUppers(s)) <==> AllSpace(s)
    decreases |s|
  {
    if |s| > 0 {
      SpaceUppersBlank(s[1..]);
      var head := if IsUpper(s[0]) then [' ', s[0]] else [s[0]];
      var t := SpaceUppers(s);
      assert t == head + SpaceUppers(s[1..]);
      if AllSpace(s) {
        assert !IsUpper(s[0]) by { assert IsSpace(s[0]); }
        assert AllSpace(s[1..]) by {
          forall i | 0 <= i < |s| - 1 ensures IsSpace(s[1..][i]) { assert s[1..][i] == s[i + 1]; }
        }
        forall i | 0 <= i < |t| ensures IsSpace(t[i]) {
          if i > 0 { assert t[i] == SpaceUppers(s[1..])[i - 1]; }
        }
      }
      if AllSpace(t) {
        assert IsSpace(t[|head| - 1]);
        forall i | 0 <= i < |s| ensures IsSpace(s[i]) {
          if i > 0 {
            assert AllSpace(SpaceUppers(s[1..])) by {
              forall j | 0 <= j < |SpaceUppers(s[1..])| ensures IsSpace(SpaceUppers(s[1..])[j]) {
                assert SpaceUppers(s[1..])[j] == t[|head| + j];
              }
            }
            assert s[i] == s[1..][i - 1];
          }
        }
      }
    }
  }

  /** Trimming keeps one slice, with only white space cut on either side. */
  lemma TrimSlice(s: string) returns (k: nat)
    ensures k + |Trim(s)| <= |s| && Trim(s) == s[k..k + |Trim(s)|]
    ensures AllSpace(s[..k]) && AllSpace(s[k + |Trim(s)|..])
  {
    var a := TrimStart(s);
    var b := TrimEnd(a);
    k := |s| - |a|;
    assert Trim(s) == b;
    assert a == s[k..];
    assert b == a[..|b|] == s[k..k + |b|];
    assert s[k + |b|..] == a[|b|..];
  }

  predicate Printing(c: char) { !IsSpace(c) }

  /** The characters of a string other than white space. */
  function Visible(s: string): string {
    Filter(Printing, s)
  }

  lemma {:induction false} VisibleBlank(s: string)
    requires AllSpace(s)
    ensures Visible(s) == []
  {
    assert forall c :: c in s ==> !Printing(c);
    FilterNone(Printing, s);
  }

  lemma {:induction false} VisibleSpaceUppers(s: string)
    ensures Visible(SpaceUppers(s)) == Visible(s)
    decreases |s|
  {
    if |s| > 0 {
      var head := if IsUpper(s[0]) then [' ', s[0]] else [s[0]];
      VisibleSpaceUppers(s[1..]);
      FilterConcat(Printing, head, SpaceUppers(s[1..]));
      assert s == [s[0]] + s[1..];
      FilterConcat(Printing, [s[0]], s[1..]);
      if IsUpper(s[0]) {
        assert head == [' '] + [s[0]];
        FilterConcat(Printing, [' '], [s[0]]);
      }
    }
  }

  lemma VisibleMiddle(a: string, t: string, b: string)
    requires AllSpace(a) && AllSpace(b)
    ensures Visible(a + t + b) == Visible(t)
  {
    FilterConcat(Printing, a + t, b);
    FilterConcat(Printing, a, t);
    VisibleBlank(a);
    VisibleBlank(b);
  }

  lemma VisibleTrim(s: string)
    ensures Visible(Trim(s)) == Visible(s)
  {
    var k := TrimSlice(s);
    VisibleSlice(s, Trim(s), k);
  }

  lemma VisibleSlice(s: string, t: string, k: nat)
    requires k + |t| <= |s| && t == s[k..k + |t|]
    requires AllSpace(s[..k]) && AllSpace(s[k + |t|..])
    ensures Visible(t) == Visible(s)
  {
    assert s == s[..k] + t + s[k + |t|..];
    VisibleMiddle(s[..k], t, s[k + |t|..]);
  }

  lemma VisibleCapitalize(t: string)
    requires |t| == 0 || !IsSpace(t[0])
    ensures Visible(CapitalizeFirst(t)) == CapitalizeFirst(Visible(t))
  {
    if |t| > 0 {
      var r := CapitalizeFirst(t);
      assert t == [t[0]] + t[1..] && r == [r[0]] + t[1..];
      FilterConcat(Printing, [t[0]], t[1..]);
      FilterConcat(Printing, [r[0]], t[1..]);
    }
  }

  /** Titling a part only adds or removes white space and capitalises the
      first character that is not white space. */
  lemma FormatPartVisible(part: string)
    ensures Visible(FormatPart(part)) == CapitalizeFirst(Visible(part))
  {
    VisibleSpaceUppers(part);
    VisibleTrim(SpaceUppers(part));
    VisibleCapitalize(Trim(SpaceUppers(part)));
  }

  /** Every capital stands after a space. */
  predicate CapitalsSpaced(t: string) {
    forall i :: 0 <= i < |t| && IsUpper(t[i]) ==> i > 0 && t[i - 1] == ' '
  }

  lemma {:induction false} SpaceUppersSpaced(s: string)
    ensures CapitalsSpaced(SpaceUppers(s))
    decreases |s|
  {
    if |s| > 0 {
      var head := if IsUpper(s[0]) then [' ', s[0]] else [s[0]];
      var rest := SpaceUppers(s[1..]);
      var t := SpaceUppers(s);
      SpaceUppersSpaced(s[1..]);
      forall i | 0 <= i < |t| && IsUpper(t[i]) ensures i > 0 && t[i - 1] == ' ' {
        if i >= |head| {
          assert t[i] == rest[i - |head|];
          if i - |head| > 0 { assert t[i - 1] == rest[i - |head| - 1]; }
        }
      }
    }
  }

  /** Every capital but the first character stands after a space. */
  predicate CapitalsSpacedAfterFirst(t: string) {
    forall i :: 0 < i < |t| && IsUpper(t[i]) ==> t[i - 1] == ' '
  }

  lemma TrimSpaced(x: string)
    requires CapitalsSpaced(x)
    ensures CapitalsSpacedAfterFirst(Trim(x))
  {
    var k := TrimSlice(x);
    var t := Trim(x);
    forall i | 0 < i < |t| && IsUpper(t[i]) ensures t[i - 1] == ' ' {
      assert t[i] == x[k + i] && t[i - 1] == x[k + i - 1];
    }
  }

  lemma CapitalizeSpaced(t: string)
    requires CapitalsSpacedAfterFirst(t) && (|t| == 0 || !IsSpace(t[0]))
    ensures CapitalsSpacedAfterFirst(CapitalizeFirst(t))
  {
    var r := CapitalizeFirst(t);
    forall i | 0 < i < |r| && IsUpper(r[i]) ensures r[i - 1] == ' ' {
      assert r[i] == r[1..][i - 1] == t[i];
      if i > 1 {
        assert r[i - 1] == r[1..][i - 2] == t[i - 1];
      }
    }
  }

  /** In a titled part every capital but the first character stands after a
      space: `planName` reads `Plan Name`. */
  lemma FormatPartSpaced(part: string)
    ensures CapitalsSpacedAfterFirst(FormatPart(part))
  {
    SpaceUppersSpaced(part);
    TrimSpaced(SpaceUppers(part));
    CapitalizeSpaced(Trim(SpaceUppers(part)));
  }

  lemma IndexedReplaced(key: string, d: string, n: nat, field: string)
    requires '[' !in key && '[' !in field && d == NatToString(n)
    ensures ReplaceIndices(key + "[" + d + "]." + field) == key + " " + NatToString(n + 1) + "." + field
  {
    var tail := "." + field;
    var idx := "[" + d + "]";
    var num := NatToString(n + 1);
    calc {
      ReplaceIndices(key + "[" + d + "]." + field);
      { assert key + "[" + d + "]." + field == key + (idx + tail); }
      ReplaceIndices(key + (idx + tail));
      { NoIndexKept(key, idx + tail); }
      key + ReplaceIndices(idx + tail);
      { IndexShown(n, tail); }
      key + (" " + num + ReplaceIndices(tail));
      { NoIndexSame(tail); }
      key + (" " + num + tail);
      key + " " + num + "." + field;
    }
  }

  lemma TwoLabels(first: string, field: string)
    requires '.' !in first && '.' !in field
    ensures Split(first + "." + field, '.') == [first, field]
  {
    assert first + "." + field == first + ['.'] + field;
    SplitFirst(first, '.', field);
    SplitNone(field, '.');
  }

  lemma TitlesTwo(first: string, field: string)
    ensures Titles([first, field]) == [FormatPart(first), FormatPart(field)]
  {
    assert [first, field][1..] == [field];
    assert [field][1..] == [];
  }

  lemma JoinTwo(a: string, b: string, sep: string)
    ensures Join([a, b], sep) == a + sep + b
  {
    assert [a, b][1..] == [b];
  }

  /** The label of `key[n].field`: the key and the 1-based position form
      the first part, the field the second. */
  lemma IndexedFieldLabel(key: string, n: nat, field: string)
    requires '[' !in key && '.' !in key && '.' !in field && '[' !in field
    ensures FormatFieldName(key + "[" + NatToString(n) + "]." + field)
         == FormatPart(key + " " + NatToString(n + 1)) + " - " + FormatPart(field)
  {
    var path := key + "[" + NatToString(n) + "]." + field;
    var num := NatToString(n + 1);
    var first := key + " " + num;
    IndexedReplaced(key, NatToString(n), n, field);
    assert '.' !in num by { assert forall i :: 0 <= i < |num| ==> IsDigit(num[i]); }
    assert first + "." + field == key + " " + num + "." + field;
    TwoLabels(first, field);
    TitlesTwo(first, field);
    assert Labels(path) == Titles([first, field]);
    JoinTwo(FormatPart(first), FormatPart(field), " - ");
  }
  // `ValidationSummary`.

  /** One list item: the titled field and the message. */
  datatype Line = Line(name: string, message: string)

  /** A box of the summary: its heading, the items it lists and, when some
      are not listed, the line saying how many more there are. */
  datatype Box = Box(heading: string, lines: seq<Line>, more: Option<string>)

  datatype Summary = Summary(errors: Option<Box>, warnings: Option<Box>)

  /** At most this many errors, and warnings, are listed. */
  const ErrorsListed: nat := 5
  const WarningsListed: nat := 3

  function LineOf(f: Finding): Line {
    Line(FormatFieldName(FieldText(f)), MessageText(f.message))
  }

  function ErrorHeading(n: nat): string {
    NatToString(n) + (if n == 1 then " Error" else " Errors") + " Found"
  }

  function WarningHeading(n: nat): string {
    NatToString(n) + (if n == 1 then " Warning" else " Warnings")
  }

  /** `...and {n} more errors` (or warnings). */
  function MoreLine(n: nat, noun: string): string {
    "...and " + NatToString(n) + " more " + noun
  }

  /** A box listing the first `limit` findings. */
  function BoxOf(heading: string, items: seq<Finding>, limit: nat, noun: string): (b: Box)
    ensures |b.lines| == if |items| < limit then |items| else limit
    ensures forall k :: 0 <= k < |b.lines| ==> b.lines[k] == LineOf(items[k])
    ensures b.more == if |b.lines| < |items| then Some(MoreLine(|items| - |b.lines|, noun)) else None
  {
    var shown := if |items| < limit then items else items[..limit];
    Box(heading, seq(|shown|, k requires 0 <= k < |shown| => LineOf(shown[k])),
        if |items| > limit then Some(MoreLine(|items| - limit, noun)) else None)
  }

  /** `ValidationSummary`: nothing when there is nothing to report; else a
      box for the errors and a box for the warnings, each only when its list
      is not empty. */
  function ValidationSummary(errors: seq<Finding>, warnings: seq<Finding>): (r: Option<Summary>)
    ensures r == None <==> |errors| == 0 && |warnings| == 0
    ensures r.Some? ==> (r.value.errors.Some? <==> |errors| > 0) && (r.value.warnings.Some? <==> |warnings| > 0)
  {
    if |errors| == 0 && |warnings| == 0 then None
    else
      Some(Summary(
        if |errors| > 0 then Some(BoxOf(ErrorHeading(|errors|), errors, ErrorsListed, "errors")) else None,
        if |warnings| > 0 then Some(BoxOf(WarningHeading(|warnings|), warnings, WarningsListed, "warnings")) else None))
  }

  /** The numeral a text starts with reads back as `n`. */
  predicate LeadsWithCount(t: string, n: nat) {
    var k := DigitRun(t);
    DigitsValue(t[..k]) == n
  }

  lemma NumeralLeads(n: nat, rest: string)
    requires |rest| > 0 && rest[0] == ' '
    ensures LeadsWithCount(NatToString(n) + rest, n)
  {
    var d := NatToString(n);
    DigitRunStops(d, rest);
    assert (d + rest)[..|d|] == d;
    DigitsValueOfNatToString(n);
  }

  /** Each heading starts with the number of findings in its box. */
  lemma HeadingCounts(n: nat)
    ensures LeadsWithCount(ErrorHeading(n), n) && LeadsWithCount(WarningHeading(n), n)
  {
    var e := if n == 1 then " Error" else " Errors";
    assert ErrorHeading(n) == NatToString(n) + (e + " Found");
    NumeralLeads(n, e + " Found");
    NumeralLeads(n, if n == 1 then " Warning" else " Warnings");
  }

  /** The headings use the plural exactly when the count is not one. */
  lemma HeadingPlural(n: nat)
    ensures EndsWith(ErrorHeading(n), "s Found") <==> n != 1
    ensures EndsWith(WarningHeading(n), "s") <==> n != 1
  {
    var d := NatToString(n);
    var h := ErrorHeading(n);
    var g := WarningHeading(n);
    if n == 1 {
      assert h == d + " Error Found";
      assert h[|h| - 7] == 'r';
      assert g == d + " Warning";
      assert g[|g| - 1] == 'g';
    } else {
      assert h == d + " Errors Found";
      assert h[|h| - 7..] == "s Found";
      assert g == d + " Warnings";
      assert g[|g| - 1..] == "s";
    }
  }

  // `ValidationFeedback`.

  datatype Tone = Red | Amber

  /** The note under one field: its colour, which icon shows, and the text. */
  datatype Notice = Notice(tone: Tone, errorIcon: bool, warningIcon: bool, text: string)

  /** `ValidationFeedback`: nothing without a finding; otherwise a red note
      with the error icon for an error and an amber one with the warning
      icon for a warning. */
  function FieldNotice(error: Option<Finding>): (r: Option<Notice>)
    ensures r == None <==> error == None
    ensures r.Some? ==> r.value.text == MessageText(error.value.message)
    ensures r.Some? ==> (r.value.tone == Red <==> error.value.severity == Error)
    ensures r.Some? ==> (r.value.errorIcon <==> error.value.severity == Error)
    ensures r.Some? ==> (r.value.warningIcon <==> error.value.severity == Warning)
  {
    match error
    case None => None
    case Some(f) =>
      var isError := f.severity == Error;
      Some(Notice(if isError then Red else Amber, isError, f.severity == Warning, MessageText(f.message)))
  }
}
