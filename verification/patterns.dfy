/**
 * The two regular expressions of the survey: the e-mail shape
 * `^[^\s@]+@[^\s@]+\.[^\s@]+$`, shared by the submission validator and the
 * import route, and the phone shape `^\+?[\d\s\-()]+$`.
 *
 * Each regex is given as a reference predicate that reads like the regex,
 * and the e-mail one also as a left-to-right scan; a lemma shows the two
 * agree on every string.
 */
module Patterns {
  import opened JsText
  import opened Numbers

  /** The class `[^\s@]`. */
  predicate EmailChar(c: char) { !IsSpace(c) && c != '@' }

  predicate AllEmailChars(s: string) {
    forall k :: 0 <= k < |s| ==> EmailChar(s[k])
  }

  /** The language of `^[^\s@]+@[^\s@]+\.[^\s@]+$`: an `@` at position `i`, a
      `.` at position `j` with at least one character before the `@`,
      between the two, and after the `.`, and every other character outside
      white space and `@`. */
  predicate EmailRef(s: string) {
    exists i, j :: 0 < i && i + 1 < j && j + 1 < |s| && s[i] == '@' && s[j] == '.'
      && AllEmailChars(s[..i]) && AllEmailChars(s[i + 1..])
  }

  /** The scan the matcher effectively performs: split at the first `@`,
      then look for a `.` strictly inside the remainder. */
  predicate EmailShape(s: string) {
    '@' in s &&
      var i := IndexOf(s, '@');
      var rest := s[i + 1..];
      i > 0 && AllEmailChars(s[..i]) && AllEmailChars(rest)
      && |rest| >= 3 && '.' in rest[1..|rest| - 1]
  }

  /** The scan accepts exactly the strings of the regex. */
  lemma EmailShapeIsRef(s: string)
    ensures EmailShape(s) <==> EmailRef(s)
  {
    if EmailShape(s) { ShapeToRef(s); }
    if EmailRef(s) { RefToShape(s); }
  }

  lemma ShapeToRef(s: string)
    requires EmailShape(s)
    ensures EmailRef(s)
  {
    var i := IndexOf(s, '@');
    var rest := s[i + 1..];
    var mid := rest[1..|rest| - 1];
    var m := IndexOf(mid, '.');
    var j := i + 2 + m;
    assert s[j] == mid[m];
    assert 0 < i && i + 1 < j && j + 1 < |s| && s[i] == '@' && s[j] == '.';
  }

  lemma RefToShape(s: string)
    requires EmailRef(s)
    ensures EmailShape(s)
  {
    var i, j :| 0 < i && i + 1 < j && j + 1 < |s| && s[i] == '@' && s[j] == '.'
      && AllEmailChars(s[..i]) && AllEmailChars(s[i + 1..]);
    FirstAt(s, i);
    var rest := s[i + 1..];
    var mid := rest[1..|rest| - 1];
    assert mid[j - i - 2] == '.';
  }

  lemma FirstAt(s: string, i: nat)
    requires i < |s| && s[i] == '@' && AllEmailChars(s[..i])
    ensures '@' in s && IndexOf(s, '@') == i
  {
    assert '@' in s;
  }

  /** A string of the e-mail shape holds exactly one `@`, and no white
      space. */
  lemma EmailShapeChars(s: string)
    requires EmailRef(s)
    ensures CountChar(s, '@') == 1
    ensures forall k :: 0 <= k < |s| ==> !IsSpace(s[k])
  {
    var i, j :| 0 < i && i + 1 < j && j + 1 < |s| && s[i] == '@' && s[j] == '.'
      && AllEmailChars(s[..i]) && AllEmailChars(s[i + 1..]);
    AtCount(s, i);
    NoSpaceAround(s, i);
  }

  lemma AtCount(s: string, i: nat)
    requires i < |s| && s[i] == '@' && AllEmailChars(s[..i]) && AllEmailChars(s[i + 1..])
    ensures CountChar(s, '@') == 1
  {
    assert s == s[..i] + ([s[i]] + s[i + 1..]);
    CountCharConcat(s[..i], [s[i]] + s[i + 1..], '@');
    CountCharConcat([s[i]], s[i + 1..], '@');
    CountCharNone(s[..i], '@');
    CountCharNone(s[i + 1..], '@');
  }

  lemma NoSpaceAround(s: string, i: nat)
    requires i < |s| && s[i] == '@' && AllEmailChars(s[..i]) && AllEmailChars(s[i + 1..])
    ensures forall k :: 0 <= k < |s| ==> !IsSpace(s[k])
  {
    forall k | 0 <= k < |s| ensures !IsSpace(s[k]) {
      if k < i { assert s[k] == s[..i][k]; }
      else if k > i { assert s[k] == s[i + 1..][k - i - 1]; }
    }
  }

  lemma {:induction false} CountCharConcat(a: string, b: string, c: char)
    ensures CountChar(a + b, c) == CountChar(a, c) + CountChar(b, c)
    decreases |a|
  {
    if |a| > 0 {
      assert (a + b)[1..] == a[1..] + b;
      CountCharConcat(a[1..], b, c);
    } else {
      assert a + b == b;
    }
  }

  lemma {:induction false} CountCharNone(a: string, c: char)
    requires AllEmailChars(a) && c == '@'
    ensures CountChar(a, c) == 0
    decreases |a|
  {
    if |a| > 0 {
      assert EmailChar(a[0]);
      CountCharNone(a[1..], c);
    }
  }

  /** The class `[\d\s\-()]`. */
  predicate PhoneChar(c: char) {
    IsDigit(c) || IsSpace(c) || c == '-' || c == '(' || c == ')'
  }

  predicate PhoneRun(s: string) {
    |s| > 0 && forall k :: 0 <= k < |s| ==> PhoneChar(s[k])
  }

  /** The language of `^\+?[\d\s\-()]+$`. */
  predicate PhoneShape(s: string) {
    PhoneRun(s) || (|s| > 0 && s[0] == '+' && PhoneRun(s[1..]))
  }

  /** A phone-shaped string holds no letters and at most a leading `+`. */
  lemma PhoneShapeChars(s: string)
    requires PhoneShape(s)
    ensures forall k :: 0 <= k < |s| ==> !IsUpper(s[k]) && !IsLower(s[k])
    ensures forall k :: 0 < k < |s| ==> s[k] != '+'
  {
    if !PhoneRun(s) {
      forall k | 0 < k < |s| ensures PhoneChar(s[k]) {
        assert s[k] == s[1..][k - 1];
      }
    }
  }
}
