/**
 * The chart data built from worksheet rows: numeric cells read leniently,
 * pie slices per category, buckets per X label with one series per group
 * or measure, and scatter points, each with the warning shown when there is
 * nothing to draw.
 */
module ChartData {
  import opened Options
  import opened JsText
  import opened Numbers
  import opened Values
  import opened SeqUtil
  import opened Export
  import opened ExcelTypes

  // Numeric cells.

  /** The characters kept when a cell's text is read as a number. */
  predicate Numeric(c: char) {
    IsDigit(c) || c == '.' || c == '-'
  }

  /** `parseNumeric`: a finite number as it is; text trimmed, stripped of
      every character but digits, `.` and `-`, and read with `Number`;
      `null` (here `None`) for anything else or anything unreadable. */
  function ParseNumeric(x: Option<Value>): (r: Option<real>)
    ensures x.Some? && x.value.Num? ==> r == Some(ToReal(x.value.n))
    ensures r.Some? ==> x.Some? && (x.value.Num? || x.value.Str?)
  {
    if x.None? then None
    else
      match x.value
      case Num(d) => Some(ToReal(d))
      case Str(s) =>
        var normalized := Trim(s);
        if normalized == "" then None else ReadCleaned(Filter(Numeric, normalized))
      case _ => None
  }

  /** `Number(cleaned)` for the cleaned text, `null` when it is empty. */
  function ReadCleaned(cleaned: string): Option<real> {
    if cleaned == "" then None else ParseNumberLiteral(cleaned)
  }

  lemma {:induction false} FilterSpaces(s: string)
    requires AllSpace(s)
    ensures Filter(Numeric, s) == ""
    decreases |s|
  {
    if |s| > 0 {
      FilterSpaces(s[1..]);
    }
  }

  /** Trimming removes nothing the filter keeps. */
  lemma TrimFiltered(s: string)
    ensures Filter(Numeric, Trim(s)) == Filter(Numeric, s)
  {
    var a := TrimStart(s);
    TrimStartFiltered(s, a);
    TrimEndFiltered(a, TrimEnd(a));
  }

  lemma TrimStartFiltered(s: string, a: string)
    requires a == TrimStart(s)
    ensures Filter(Numeric, a) == Filter(Numeric, s)
  {
    var pre := s[..|s| - |a|];
    assert s == pre + a;
    FilterConcat(Numeric, pre, a);
    FilterSpaces(pre);
  }

  lemma TrimEndFiltered(a: string, b: string)
    requires b == TrimEnd(a)
    ensures Filter(Numeric, b) == Filter(Numeric, a)
  {
    var post := a[|b|..];
    assert a == b + post;
    FilterConcat(Numeric, b, post);
    FilterSpaces(post);
  }

  /** A text cell reads as the number its digits, points and minus signs
      spell, whatever else surrounds them: `$1,234.50` reads as `1234.50`. */
  lemma ParseNumericText(s: string)
    ensures ParseNumeric(Some(Str(s))) == ReadCleaned(Filter(Numeric, s))
  {
    if AllSpace(s) {
      BlankText(s);
      FilterSpaces(s);
    } else {
      TrimmedText(s);
      TrimFiltered(s);
    }
  }

  lemma BlankText(s: string)
    requires AllSpace(s)
    ensures ParseNumeric(Some(Str(s))) == None
  {
  }

  lemma TrimmedText(s: string)
    requires !AllSpace(s)
    ensures ParseNumeric(Some(Str(s))) == ReadCleaned(Filter(Numeric, Trim(s)))
  {
  }

  /** Inserting a character other than a digit, `.` or `-` anywhere in a
      text cell does not change the number read from it. */
  lemma ParseNumericIgnores(a: string, c: char, b: string)
    requires !Numeric(c)
    ensures ParseNumeric(Some(Str(a + [c] + b))) == ParseNumeric(Some(Str(a + b)))
  {
    FilterSkips(a, c, b);
    ParseNumericText(a + [c] + b);
    ParseNumericText(a + b);
  }

  lemma FilterSkips(a: string, c: char, b: string)
    requires !Numeric(c)
    ensures Filter(Numeric, a + [c] + b) == Filter(Numeric, a + b)
  {
    FilterConcat(Numeric, a + [c], b);
    FilterConcat(Numeric, a, [c]);
    FilterConcat(Numeric, a, b);
    assert Filter(Numeric, [c]) == [];
  }

  lemma {:induction false} NumeralKept(s: string)
    requires forall i :: 0 <= i < |s| ==> Numeric(s[i])
    ensures Filter(Numeric, s) == s
    decreases |s|
  {
    if |s| > 0 {
      NumeralKept(s[1..]);
      assert s == [s[0]] + s[1..];
    }
  }

  lemma NumeralChars(d: Decimal)
    ensures forall i :: 0 <= i < |DecimalToString(d)| ==> Numeric(DecimalToString(d)[i])
  {
    var n := Normalize(d);
    var mag := Abs(n.units);
    var whole := NatToString(Quot(mag, Pow10(n.scale)));
    assert AllDigits(whole);
    if n.scale > 0 {
      var frac := PadDigits(Rem(mag, Pow10(n.scale)), n.scale);
      assert AllDigits(frac);
      var t := whole + "." + frac;
      assert forall i :: 0 <= i < |t| ==> Numeric(t[i]) by {
        forall i | 0 <= i < |t| ensures Numeric(t[i]) {
          if i < |whole| { assert t[i] == whole[i]; }
          else if i > |whole| { assert t[i] == frac[i - |whole| - 1]; }
        }
      }
    }
  }

  /** A cell holding the text of a number reads as that number. */
  lemma ParseNumericNumeral(d: Decimal)
    ensures ParseNumeric(Some(Str(DecimalToString(d)))) == Some(ToReal(d))
  {
    NumeralChars(d);
    NumeralKept(DecimalToString(d));
    ParseNumericText(DecimalToString(d));
    DecimalRoundTrip(d);
  }

  // Tallies: a `Map` from labels to sums, in first-insertion order.

  /** `map.get(k) ?? 0`. */
  function Amount(m: seq<(string, real)>, k: string): real {
    match Get(m, k)
    case Some(v) => v
    case None => 0.0
  }

  /** `map.set(k, (map.get(k) ?? 0) + d)`. */
  function Add(m: seq<(string, real)>, k: string, d: real): (r: seq<(string, real)>)
    ensures Amount(r, k) == Amount(m, k) + d
    ensures forall k' :: k' != k ==> Get(r, k') == Get(m, k')
  {
    Put(m, k, Amount(m, k) + d)
  }

  /** The rows folded into a tally: a row adds its delta under its label,
      and a row without a delta is skipped. */
  function Tally(m: seq<(string, real)>, rows: seq<Row>, keyOf: Row -> string, delta: Row -> Option<real>): seq<(string, real)>
    decreases |rows|
  {
    if |rows| == 0 then m
    else
      var d := delta(rows[0]);
      Tally(if d.Some? then Add(m, keyOf(rows[0]), d.value) else m, rows[1..], keyOf, delta)
  }

  /** What the rows labelled `c` contribute. */
  function Share(rows: seq<Row>, c: string, keyOf: Row -> string, delta: Row -> Option<real>): real
    decreases |rows|
  {
    if |rows| == 0 then 0.0
    else
      var d := delta(rows[0]);
      (if d.Some? && keyOf(rows[0]) == c then d.value else 0.0) + Share(rows[1..], c, keyOf, delta)
  }

  /** What all rows contribute. */
  function ShareAll(rows: seq<Row>, delta: Row -> Option<real>): real
    decreases |rows|
  {
    if |rows| == 0 then 0.0
    else
      var d := delta(rows[0]);
      (if d.Some? then d.value else 0.0) + ShareAll(rows[1..], delta)
  }

  /** The labels of the rows that contribute, in row order. */
  function Contributors(rows: seq<Row>, keyOf: Row -> string, delta: Row -> Option<real>): seq<string>
    decreases |rows|
  {
    if |rows| == 0 then []
    else (if delta(rows[0]).Some? then [keyOf(rows[0])] else []) + Contributors(rows[1..], keyOf, delta)
  }

  /** `seen` followed by the items not seen before, each once, in order. */
  function Dedup(seen: seq<string>, xs: seq<string>): seq<string>
    decreases |xs|
  {
    if |xs| == 0 then seen
    else Dedup(if xs[0] in seen then seen else seen + [xs[0]], xs[1..])
  }

  lemma {:induction false} DedupDistinct(seen: seq<string>, xs: seq<string>)
    requires Distinct(seen)
    ensures Distinct(Dedup(seen, xs))
    ensures forall x :: x in Dedup(seen, xs) <==> x in seen || x in xs
    decreases |xs|
  {
    if |xs| > 0 {
      var next := if xs[0] in seen then seen else seen + [xs[0]];
      DedupDistinct(next, xs[1..]);
      assert xs == [xs[0]] + xs[1..];
    }
  }

  /** Each label's amount grows by exactly what its rows contribute. */
  lemma {:induction false} TallyAmount(m: seq<(string, real)>, rows: seq<Row>, keyOf: Row -> string, delta: Row -> Option<real>, c: string)
    ensures Amount(Tally(m, rows, keyOf, delta), c) == Amount(m, c) + Share(rows, c, keyOf, delta)
    decreases |rows|
  {
    if |rows| > 0 {
      var d := delta(rows[0]);
      var m' := if d.Some? then Add(m, keyOf(rows[0]), d.value) else m;
      TallyAmount(m', rows[1..], keyOf, delta, c);
      if d.Some? && keyOf(rows[0]) != c {
        assert Get(m', c) == Get(m, c);
      }
    }
  }

  /** The labels of a tally are those it started with, then the labels of
      the contributing rows in first-seen order. */
  lemma {:induction false} TallyKeys(m: seq<(string, real)>, rows: seq<Row>, keyOf: Row -> string, delta: Row -> Option<real>)
    ensures KeysOf(Tally(m, rows, keyOf, delta)) == Dedup(KeysOf(m), Contributors(rows, keyOf, delta))
    decreases |rows|
  {
    if |rows| > 0 {
      var d := delta(rows[0]);
      var m' := if d.Some? then Add(m, keyOf(rows[0]), d.value) else m;
      TallyKeys(m', rows[1..], keyOf, delta);
      var rest := Contributors(rows[1..], keyOf, delta);
      if d.Some? {
        assert Contributors(rows, keyOf, delta) == [keyOf(rows[0])] + rest;
        assert ([keyOf(rows[0])] + rest)[1..] == rest;
      } else {
        assert Contributors(rows, keyOf, delta) == rest;
      }
    }
  }

  /** The sum of a tally's amounts. */
  function Total(m: seq<(string, real)>): real
    decreases |m|
  {
    if |m| == 0 then 0.0 else m[0].1 + Total(m[1..])
  }

  lemma {:induction false} TotalPut(m: seq<(string, real)>, k: string, v: real)
    requires Distinct(KeysOf(m))
    ensures Total(Put(m, k, v)) == Total(m) - Amount(m, k) + v
    decreases |m|
  {
    if |m| > 0 {
      assert KeysOf(m)[1..] == KeysOf(m[1..]);
      assert Distinct(KeysOf(m[1..]));
      if m[0].0 == k {
        assert ([(k, v)] + m[1..])[1..] == m[1..];
      } else {
        TotalPut(m[1..], k, v);
        var rest := Put(m[1..], k, v);
        assert ([m[0]] + rest)[1..] == rest;
      }
    }
  }

  /** The amounts of a tally grow in total by what all rows contribute. */
  lemma {:induction false} TallyTotal(m: seq<(string, real)>, rows: seq<Row>, keyOf: Row -> string, delta: Row -> Option<real>)
    requires Distinct(KeysOf(m))
    ensures Total(Tally(m, rows, keyOf, delta)) == Total(m) + ShareAll(rows, delta)
    decreases |rows|
  {
    if |rows| > 0 {
      var d := delta(rows[0]);
      if d.Some? {
        TotalPut(m, keyOf(rows[0]), Amount(m, keyOf(rows[0])) + d.value);
      }
      var m' := if d.Some? then Add(m, keyOf(rows[0]), d.value) else m;
      TallyTotal(m', rows[1..], keyOf, delta);
    }
  }

  lemma {:induction false} ShareAllCount(rows: seq<Row>, delta: Row -> Option<real>)
    requires forall r :: delta(r) == Some(1.0)
    ensures ShareAll(rows, delta) == |rows| as real
    decreases |rows|
  {
    if |rows| > 0 {
      ShareAllCount(rows[1..], delta);
    }
  }
}
