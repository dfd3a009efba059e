/**
 * The survey summary page (app/survey/summary/page.tsx): the stored
 * responses laid out as one block per top-level entry, each key turned into
 * a title by `formatKey` and each answer into text by `formatValue`.
 */
module SummaryPage {
  import opened Options
  import opened Numbers
  import opened JsText
  import opened Values
  import opened JsonText
  import Feedback

  // `formatKey`.

  /** `word.charAt(0).toUpperCase() + word.slice(1).toLowerCase()`. */
  function TitleWord(w: string): (r: string)
    ensures |r| == |w|
  {
    if |w| == 0 then "" else [UpperChar(w[0])] + Lower(w[1..])
  }

  function TitleWords(ws: seq<string>): (r: seq<string>)
    ensures |r| == |ws|
    ensures forall i :: 0 <= i < |ws| ==> r[i] == TitleWord(ws[i])
  {
    if |ws| == 0 then [] else [TitleWord(ws[0])] + TitleWords(ws[1..])
  }

  /** The text `formatKey` splits into words: each underscore a space, and
      a space in front of every capital. */
  function Spaced(key: string): string {
    Feedback.SpaceUppers(ReplaceChar(key, '_', " "))
  }

  /** `formatKey`: the spaced key split at its spaces, each word titled, and
      the words joined with single spaces. */
  function FormatKey(key: string): string {
    Join(TitleWords(Split(Spaced(key), ' ')), " ")
  }

  /** A word in title case: nothing but its first character may be a
      capital. */
  predicate TitleCased(w: string) {
    forall i :: 1 <= i < |w| ==> !IsUpper(w[i])
  }

  /** The letters of a text with case, spaces and underscores disregarded. */
  function Squash(s: string): string {
    if |s| == 0 then ""
    else if s[0] == ' ' || s[0] == '_' then Squash(s[1..])
    else [LowerChar(s[0])] + Squash(s[1..])
  }

  function SquashAll(ws: seq<string>): string {
    if |ws| == 0 then "" else Squash(ws[0]) + SquashAll(ws[1..])
  }

  lemma {:induction false} SquashConcat(a: string, b: string)
    ensures Squash(a + b) == Squash(a) + Squash(b)
  {
    if |a| > 0 {
      SquashConcat(a[1..], b);
      assert (a + b)[1..] == a[1..] + b;
    } else {
      assert a + b == b;
    }
  }

  lemma {:induction false} SquashLower(s: string)
    ensures Squash(Lower(s)) == Squash(s)
  {
    if |s| > 0 {
      SquashLower(s[1..]);
      assert Lower(s)[1..] == Lower(s[1..]);
    }
  }

  lemma SquashTitle(w: string)
    ensures Squash(TitleWord(w)) == Squash(w)
  {
    if |w| > 0 {
      SquashConcat([UpperChar(w[0])], Lower(w[1..]));
      SquashLower(w[1..]);
      SquashConcat([w[0]], w[1..]);
      assert w == [w[0]] + w[1..];
    }
  }

  lemma {:induction false} SquashTitles(ws: seq<string>)
    ensures SquashAll(TitleWords(ws)) == SquashAll(ws)
  {
    if |ws| > 0 {
      SquashTitles(ws[1..]);
      SquashTitle(ws[0]);
      assert TitleWords(ws)[1..] == TitleWords(ws[1..]);
    }
  }

  /** Joining with spaces adds nothing but spaces. */
  lemma {:induction false} SquashJoin(ws: seq<string>)
    ensures Squash(Join(ws, " ")) == SquashAll(ws)
  {
    if |ws| == 1 {
      assert SquashAll(ws[1..]) == "";
    } else if |ws| > 1 {
      SquashJoin(ws[1..]);
      SquashConcat(ws[0] + " ", Join(ws[1..], " "));
      SquashConcat(ws[0], " ");
    }
  }

  lemma {:induction false} SquashUnderscores(key: string)
    ensures Squash(ReplaceChar(key, '_', " ")) == Squash(key)
  {
    if |key| > 0 {
      SquashUnderscores(key[1..]);
      var head := if key[0] == '_' then " " else [key[0]];
      SquashConcat(head, ReplaceChar(key[1..], '_', " "));
    }
  }

  lemma {:induction false} SquashSpaceUppers(s: string)
    ensures Squash(Feedback.SpaceUppers(s)) == Squash(s)
  {
    if |s| > 0 {
      SquashSpaceUppers(s[1..]);
      var head := if IsUpper(s[0]) then [' ', s[0]] else [s[0]];
      SquashConcat(head, Feedback.SpaceUppers(s[1..]));
    }
  }

  /** `formatKey` changes nothing but spacing and case: with spaces,
      underscores and case disregarded the title is the key. */
  lemma FormatKeyKeepsLetters(key: string)
    ensures Squash(FormatKey(key)) == Squash(key)
  {
    var s := Spaced(key);
    var words := Split(s, ' ');
    SquashJoin(TitleWords(words));
    SquashTitles(words);
    JoinSplit(s, ' ');
    SquashJoin(words);
    SquashSpaceUppers(ReplaceChar(key, '_', " "));
    SquashUnderscores(key);
  }

  // Characters that no step brings in.

  lemma {:induction false} SpaceUppersWithout(s: string, c: char)
    requires c != ' ' && c !in s
    ensures c !in Feedback.SpaceUppers(s)
  {
    if |s| > 0 {
      SpaceUppersWithout(s[1..], c);
    }
  }

  lemma {:induction false} SplitWithout(s: string, sep: char, c: char)
    requires c !in s
    ensures forall k :: 0 <= k < |Split(s, sep)| ==> c !in Split(s, sep)[k]
  {
    if |s| > 0 {
      SplitWithout(s[1..], sep, c);
    }
  }

  lemma TitleWithout(w: string, c: char)
    requires c !in w && !IsUpper(c) && !IsLower(c)
    ensures c !in TitleWord(w)
  {
  }

  lemma {:induction false} JoinWithout(ws: seq<string>, sep: string, c: char)
    requires c !in sep
    requires forall k :: 0 <= k < |ws| ==> c !in ws[k]
    ensures c !in Join(ws, sep)
  {
    if |ws| > 1 {
      JoinWithout(ws[1..], sep, c);
    }
  }

  /** No underscore survives `formatKey`. */
  lemma FormatKeyNoUnderscore(key: string)
    ensures '_' !in FormatKey(key)
  {
    var s := Spaced(key);
    SpaceUppersWithout(ReplaceChar(key, '_', " "), '_');
    SplitWithout(s, ' ', '_');
    var words := Split(s, ' ');
    forall k | 0 <= k < |words|
      ensures '_' !in TitleWords(words)[k]
    {
      TitleWithout(words[k], '_');
    }
    JoinWithout(TitleWords(words), " ", '_');
  }

  /** Splitting words joined with a separator they do not hold gives the
      words back. */
  lemma {:induction false} SplitJoin(ws: seq<string>, sep: char)
    requires |ws| > 0
    requires forall k :: 0 <= k < |ws| ==> sep !in ws[k]
    ensures Split(Join(ws, [sep]), sep) == ws
  {
    if |ws| == 1 {
      SplitNone(ws[0], sep);
    } else {
      SplitJoin(ws[1..], sep);
      SplitFirst(ws[0], sep, Join(ws[1..], [sep]));
      assert ws == [ws[0]] + ws[1..];
    }
  }

  lemma TitleWordCased(w: string)
    ensures TitleCased(TitleWord(w))
    ensures ' ' !in w ==> ' ' !in TitleWord(w)
  {
    if |w| > 0 {
      var r := TitleWord(w);
      forall i | 1 <= i < |r|
        ensures !IsUpper(r[i])
      {
        assert r[i] == LowerChar(w[i]);
      }
    }
  }

  /** The words of the title are the words of the spaced key, one for one,
      each in title case. */
  lemma FormatKeyWords(key: string)
    ensures var words := Split(FormatKey(key), ' ');
      && |words| == CountChar(Spaced(key), ' ') + 1
      && (forall k :: 0 <= k < |words| ==> TitleCased(words[k]))
      && (forall k :: 0 <= k < |words| ==> Squash(words[k]) == Squash(Split(Spaced(key), ' ')[k]))
  {
    var parts := Split(Spaced(key), ' ');
    var titled := TitleWords(parts);
    forall k | 0 <= k < |titled|
      ensures ' ' !in titled[k] && TitleCased(titled[k])
    {
      TitleWordCased(parts[k]);
    }
    SplitJoin(titled, ' ');
    forall k | 0 <= k < |titled|
      ensures Squash(titled[k]) == Squash(parts[k])
    {
      SquashTitle(parts[k]);
    }
  }

  /** Words of lower-case letters joined with underscores come out titled
      and joined with spaces: `organization_name` reads `Organization Name`. */
  lemma SnakeCaseKey(ws: seq<string>)
    requires |ws| > 0
    requires forall k :: 0 <= k < |ws| ==> AllLower(ws[k])
    ensures FormatKey(Join(ws, "_")) == Join(TitleWords(ws), " ")
  {
    SnakeSpaced(ws);
    forall k | 0 <= k < |ws|
      ensures ' ' !in ws[k]
    {
      assert forall i :: 0 <= i < |ws[k]| ==> IsLower(ws[k][i]);
    }
    SplitJoin(ws, ' ');
  }

  predicate AllLower(w: string) {
    forall i :: 0 <= i < |w| ==> IsLower(w[i])
  }

  lemma {:induction false} SnakeSpaced(ws: seq<string>)
    requires |ws| > 0
    requires forall k :: 0 <= k < |ws| ==> AllLower(ws[k])
    ensures Spaced(Join(ws, "_")) == Join(ws, " ")
  {
    if |ws| == 1 {
      LowerKept(ws[0]);
    } else {
      var rest := Join(ws[1..], "_");
      SnakeSpaced(ws[1..]);
      LowerKept(ws[0]);
      ReplaceConcat(ws[0] + "_", rest);
      ReplaceConcat(ws[0], "_");
      assert ReplaceChar(Join(ws, "_"), '_', " ") == ws[0] + " " + ReplaceChar(rest, '_', " ");
      SpaceUppersConcat(ws[0] + " ", ReplaceChar(rest, '_', " "));
      SpaceUppersConcat(ws[0], " ");
      assert Feedback.SpaceUppers(ws[0] + " ") == ws[0] + " ";
    }
  }

  /** A word of lower-case letters passes both replacements unchanged. */
  lemma {:induction false} LowerKept(w: string)
    requires AllLower(w)
    ensures ReplaceChar(w, '_', " ") == w
    ensures Feedback.SpaceUppers(w) == w
  {
    if |w| > 0 {
      LowerKept(w[1..]);
      assert w == [w[0]] + w[1..];
    }
  }

  lemma {:induction false} ReplaceConcat(a: string, b: string)
    ensures ReplaceChar(a + b, '_', " ") == ReplaceChar(a, '_', " ") + ReplaceChar(b, '_', " ")
  {
    if |a| > 0 {
      ReplaceConcat(a[1..], b);
      assert (a + b)[1..] == a[1..] + b;
    } else {
      assert a + b == b;
    }
  }

  lemma {:induction false} SpaceUppersConcat(a: string, b: string)
    ensures Feedback.SpaceUppers(a + b) == Feedback.SpaceUppers(a) + Feedback.SpaceUppers(b)
  {
    if |a| > 0 {
      SpaceUppersConcat(a[1..], b);
      assert (a + b)[1..] == a[1..] + b;
    } else {
      assert a + b == b;
    }
  }

  /** A lower-case word followed by a capitalised one (camel case) comes out
      as two titled words: `planName` reads `Plan Name`. */
  lemma CamelCaseKey(a: string, c: char, b: string)
    requires |a| > 0 && AllLower(a) && IsUpper(c) && AllLower(b)
    ensures FormatKey(a + [c] + b) == TitleWord(a) + " " + [c] + b
  {
    CamelSpaced(a, c, b);
    SplitFirst(a, ' ', [c] + b);
    SplitNone([c] + b, ' ');
    var words := [a, [c] + b];
    assert Split(Spaced(a + [c] + b), ' ') == words;
    assert Lower(b) == b;
    var titled := TitleWords(words);
    assert titled == [TitleWord(a), [c] + b];
    assert titled[1..] == [[c] + b];
    assert Join(titled, " ") == TitleWord(a) + " " + ([c] + b);
  }

  lemma CamelSpaced(a: string, c: char, b: string)
    requires AllLower(a) && IsUpper(c) && AllLower(b)
    ensures Spaced(a + [c] + b) == a + " " + ([c] + b)
  {
    LowerKept(a);
    LowerKept(b);
    ReplaceConcat(a + [c], b);
    ReplaceConcat(a, [c]);
    assert ReplaceChar([c], '_', " ") == [c];
    SpaceUppersConcat(a + [c], b);
    SpaceUppersConcat(a, [c]);
    assert Feedback.SpaceUppers([c]) == [' ', c];
  }

  // `formatValue`.

  /** How `join` writes one element: `null` as nothing, anything else as
      `String(x)`. */
  function ItemText(v: Value): string {
    if v == Null then "" else ToText(v)
  }

  function ItemTexts(items: seq<Value>): (r: seq<string>)
    ensures |r| == |items|
    ensures forall i :: 0 <= i < |items| ==> r[i] == ItemText(items[i])
  {
    seq(|items|, i requires 0 <= i < |items| => ItemText(items[i]))
  }

  const NotProvided: string := "Not provided"

  /** `formatValue`: an array as its elements joined with `, `, any other
      object as its indented JSON, a boolean as `Yes` or `No`, and anything
      else as its text, with a falsy value shown as `Not provided`. */
  function FormatValue(x: Option<Value>): (r: string)
    ensures x.Some? && x.value.Bool? ==> r == if x.value.b then "Yes" else "No"
    ensures !Truthy(x) && !(x.Some? && x.value.Bool?) ==> r == NotProvided
    ensures Truthy(x) && !x.value.Bool? && !x.value.Arr? && !x.value.Obj? ==> r == ToText(x.value)
    ensures x.Some? && x.value.Arr? ==> r == Join(ItemTexts(x.value.items), ", ")
    ensures x.Some? && x.value.Obj? ==> r == Stringify(x.value, "")
  {
    if x.None? then NotProvided
    else
      var v := x.value;
      match v
      case Arr(items) => Join(ItemTexts(items), ", ")
      case Obj(_) => Stringify(v, "")
      case Bool(b) => if b then "Yes" else "No"
      case _ => if Truthy(x) then ToText(v) else NotProvided
  }

  lemma JoinBlank(ps: seq<string>, sep: string)
    requires |sep| > 0
    ensures Join(ps, sep) == "" <==> |ps| == 0 || (|ps| == 1 && ps[0] == "")
  {
    if |ps| > 1 {
      assert |Join(ps, sep)| >= |sep|;
    }
  }

  /** Only an array can show as nothing at all: an empty one, or one whose
      single element writes as nothing. Every other answer shows some
      text. */
  lemma BlankOnlyForArrays(x: Option<Value>)
    ensures FormatValue(x) == "" <==>
      x.Some? && x.value.Arr? && (|x.value.items| == 0 || (|x.value.items| == 1 && ItemText(x.value.items[0]) == ""))
  {
    if x.Some? && x.value.Arr? {
      JoinBlank(ItemTexts(x.value.items), ", ");
    }
  }

  /** Outside arrays, `Not provided` is shown exactly for an answer that is
      falsy and not a boolean (absent, `null`, empty, zero or `NaN`), or
      that is that very text. */
  lemma NotProvidedWhenFalsy(x: Option<Value>)
    requires !(x.Some? && x.value.Arr?)
    ensures FormatValue(x) == NotProvided <==>
      (!Truthy(x) && !(x.Some? && x.value.Bool?)) || x == Some(Str(NotProvided))
  {
    if Truthy(x) && x.value.Num? {
      var n := Normalize(x.value.n);
      var mag := MagnitudeText(Abs(n.units), n.scale);
      assert DecimalToString(x.value.n)[0] == if n.units < 0 then '-' else mag[0];
    }
  }

  // The page.

  /** One `key: value` line of the summary. */
  datatype Line = Line(name: string, text: string)

  /** A top-level entry: an object answer as a titled section of lines, any
      other answer as a single line. */
  datatype Block = Section(title: string, lines: seq<Line>) | Single(line: Line)

  datatype Summary = NoResponses | Blocks(blocks: seq<Block>)

  /** `Object.entries(v)`: an object's properties, an array's or a string's
      indices with their elements, and nothing for other values. */
  function Entries(v: Value): (r: seq<(string, Value)>)
    ensures v.Obj? ==> r == v.fields
    ensures v.Arr? ==> |r| == |v.items| && forall i :: 0 <= i < |r| ==> r[i] == (NatToString(i), v.items[i])
    ensures !v.Obj? && !v.Arr? && !v.Str? ==> r == []
  {
    match v
    case Obj(fields) => fields
    case Arr(items) => seq(|items|, i requires 0 <= i < |items| => (NatToString(i), items[i]))
    case Str(s) => seq(|s|, i requires 0 <= i < |s| => (NatToString(i), Str([s[i]])))
    case _ => []
  }

  function LineOf(entry: (string, Value)): Line {
    Line(FormatKey(entry.0), FormatValue(Some(entry.1)))
  }

  /** The block for one entry: `typeof data === 'object' && data !== null
      && !Array.isArray(data)` selects a section. */
  function BlockOf(entry: (string, Value)): Block {
    var data := entry.1;
    if data.Obj? then Section(FormatKey(entry.0), seq(|data.fields|, i requires 0 <= i < |data.fields| => LineOf(data.fields[i])))
    else Single(LineOf(entry))
  }

  /** The page for the stored responses (`None` when nothing is stored or
      the stored text is not JSON): a notice when they are falsy, else one
      block per entry in order. */
  function SummaryOf(responses: Option<Value>): (r: Summary)
    ensures r.NoResponses? <==> !Truthy(responses)
    ensures r.Blocks? ==> |r.blocks| == |Entries(responses.value)|
  {
    if !Truthy(responses) then NoResponses
    else
      var entries := Entries(responses.value);
      Blocks(seq(|entries|, i requires 0 <= i < |entries| => BlockOf(entries[i])))
  }

  /** The title a block shows. */
  function TitleOf(b: Block): string {
    if b.Section? then b.title else b.line.name
  }

  /** Every answer of an object response is on the page, in order: entry
      `i` becomes block `i`, titled by its key and a section exactly when its
      value is an object, whose line `j` names the `j`th key of that object
      and shows its value. An empty object gives an empty page rather than
      the notice. */
  lemma SummaryListsAnswers(fields: seq<(string, Value)>)
    ensures var r := SummaryOf(Some(Obj(fields)));
      && r.Blocks? && |r.blocks| == |fields|
      && (forall i :: 0 <= i < |fields| ==> Squash(TitleOf(r.blocks[i])) == Squash(fields[i].0))
      && (forall i :: 0 <= i < |fields| ==> (r.blocks[i].Section? <==> fields[i].1.Obj?))
      && (forall i :: 0 <= i < |fields| && fields[i].1.Obj? ==> |r.blocks[i].lines| == |fields[i].1.fields|)
      && (forall i, j :: 0 <= i < |fields| && fields[i].1.Obj? && 0 <= j < |fields[i].1.fields| ==>
            Squash(r.blocks[i].lines[j].name) == Squash(fields[i].1.fields[j].0)
            && r.blocks[i].lines[j].text == FormatValue(Some(fields[i].1.fields[j].1)))
  {
    var r := SummaryOf(Some(Obj(fields)));
    forall i | 0 <= i < |fields|
      ensures Squash(TitleOf(r.blocks[i])) == Squash(fields[i].0)
    {
      FormatKeyKeepsLetters(fields[i].0);
    }
    forall i, j | 0 <= i < |fields| && fields[i].1.Obj? && 0 <= j < |fields[i].1.fields|
      ensures Squash(r.blocks[i].lines[j].name) == Squash(fields[i].1.fields[j].0)
    {
      FormatKeyKeepsLetters(fields[i].1.fields[j].0);
    }
  }
}
