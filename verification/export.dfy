/**
 * The CSV export of the survey form (components/HealthcareSurvey.tsx):
 * `flattenSurveyData` turns the nested answers into one text per leaf,
 * keyed by the leaf's path, and `createCsvContent` writes those pairs as a
 * two-column CSV file.
 */
module Export {
  import opened Options
  import opened JsText
  import opened Numbers
  import opened Values
  import opened Paths
  import opened SeqUtil

  // Flattening.

  /** `${path}[${index}]`, which is also `[${index}]` at the root. */
  function ItemPath(path: string, i: nat): string {
    path + "[" + NatToString(i) + "]"
  }

  /** `path ? `${path}.${key}` : key`. */
  function KeyPath(path: string, key: string): string {
    if path == "" then key else path + "." + key
  }

  /** The text recorded for a leaf: `""` for `null`, `"[]"` and `"{}"` for
      an empty array and object, `String(value)` for the rest. */
  function LeafText(v: Value): string {
    match v
    case Null => ""
    case Arr(_) => "[]"
    case Obj(_) => "{}"
    case _ => ToText(v)
  }

  /** A value with no children to visit. */
  predicate IsLeaf(v: Value) {
    match v
    case Arr(items) => |items| == 0
    case Obj(fields) => |fields| == 0
    case _ => true
  }

  /** A leaf recorded only below the root: `null`, `[]` and `{}`. */
  predicate RootSkipped(v: Value) {
    v == Null || v == Arr([]) || v == Obj([])
  }

  /** `traverse(value, path)`: the assignments `result[path] = text` it
      makes, in the order it makes them. */
  function Writes(v: Value, path: string): (r: seq<(string, string)>)
    decreases v
  {
    if IsLeaf(v) then
      if path == "" && RootSkipped(v) then [] else [(path, LeafText(v))]
    else
      match v
      case Arr(items) =>
        Flat(seq(|items|, i requires 0 <= i < |items| => Writes(items[i], ItemPath(path, i))))
      case Obj(fields) =>
        Flat(seq(|fields|, i requires 0 <= i < |fields| => Writes(fields[i].1, KeyPath(path, fields[i].0))))
  }

  // The record the assignments fill.

  /** The keys of a record, in order. */
  function KeysOf<V>(rec: seq<(string, V)>): (ks: seq<string>)
    ensures |ks| == |rec|
  {
    if |rec| == 0 then [] else [rec[0].0] + KeysOf(rec[1..])
  }

  predicate Distinct<T(==)>(xs: seq<T>) {
    forall i, j :: 0 <= i < j < |xs| ==> xs[i] != xs[j]
  }

  /** The value a record holds for a key. */
  function Get<V>(rec: seq<(string, V)>, k: string): Option<V> {
    if |rec| == 0 then None else if rec[0].0 == k then Some(rec[0].1) else Get(rec[1..], k)
  }

  /** `rec[k] = v` on a plain object, for any key but `__proto__`: an
      existing key keeps its place and takes the new value, a new key goes
      at the end. */
  function Put<V(==)>(rec: seq<(string, V)>, k: string, v: V): (r: seq<(string, V)>)
    ensures Get(r, k) == Some(v)
    ensures forall k' :: k' != k ==> Get(r, k') == Get(rec, k')
    ensures Distinct(KeysOf(rec)) ==> Distinct(KeysOf(r))
    ensures k in KeysOf(rec) ==> KeysOf(r) == KeysOf(rec)
    ensures k !in KeysOf(rec) ==> KeysOf(r) == KeysOf(rec) + [k]
  {
    if |rec| == 0 then [(k, v)]
    else if rec[0].0 == k then
      assert KeysOf([(k, v)] + rec[1..])[1..] == KeysOf(rec[1..]);
      [(k, v)] + rec[1..]
    else
      var rest := Put(rec[1..], k, v);
      assert KeysOf([rec[0]] + rest)[1..] == KeysOf(rest);
      assert KeysOf(rec)[1..] == KeysOf(rec[1..]);
      [rec[0]] + rest
  }

  /** The one key whose assignment on a plain `{}` runs the inherited
      `Object.prototype.__proto__` setter instead of storing a property. */
  const ProtoKey: string := "__proto__"

  /** The record made by the assignments, one after the other. Every value
      written is a string, which the `__proto__` setter ignores, so an
      assignment to that key leaves the record as it was. */
  function Record<V(==)>(writes: seq<(string, V)>): (r: seq<(string, V)>)
    ensures Distinct(KeysOf(r))
    ensures ProtoKey !in KeysOf(r)
  {
    if |writes| == 0 then []
    else
      var last := writes[|writes| - 1];
      var init := Record(writes[..|writes| - 1]);
      if last.0 == ProtoKey then init else Put(init, last.0, last.1)
  }

  /** The assignments that store something, in order: all but those to
      `__proto__`. */
  function Stored<V>(writes: seq<(string, V)>): (r: seq<(string, V)>)
    ensures |r| <= |writes|
  {
    if |writes| == 0 then []
    else
      var n := |writes| - 1;
      if writes[n].0 == ProtoKey then Stored(writes[..n]) else Stored(writes[..n]) + [writes[n]]
  }

  /** `flattenSurveyData`. */
  function Flatten(input: Value): seq<(string, string)> {
    Record(Writes(input, ""))
  }

  // CSV.

  /** `escapeCsvValue`: every `"` doubled. */
  function Escape(s: string): string {
    ReplaceChar(s, '"', "\"\"")
  }

  /** `value.replace(/\r?\n/g, " ")`: each line break, with or without a
      carriage return before it, becomes one space. */
  function JoinLines(s: string): (r: string)
    ensures '\n' !in r
    ensures |r| <= |s|
  {
    if |s| == 0 then ""
    else if |s| >= 2 && s[0] == '\r' && s[1] == '\n' then " " + JoinLines(s[2..])
    else if s[0] == '\n' then " " + JoinLines(s[1..])
    else [s[0]] + JoinLines(s[1..])
  }

  /** Text without a line feed is left as it is. */
  lemma {:induction false} JoinLinesPlain(s: string)
    requires '\n' !in s
    ensures JoinLines(s) == s
    decreases |s|
  {
    if |s| > 0 {
      JoinLinesPlain(s[1..]);
      assert s == [s[0]] + s[1..];
    }
  }

  const CsvHeader: string := "\"Field\",\"Value\""

  function CsvLine(field: string, value: string): string {
    "\"" + Escape(field) + "\",\"" + Escape(JoinLines(value)) + "\""
  }

  function CsvLines(rec: seq<(string, string)>): (lines: seq<string>)
    ensures |lines| == |rec|
  {
    seq(|rec|, k requires 0 <= k < |rec| => CsvLine(rec[k].0, rec[k].1))
  }

  /** `createCsvContent`. */
  function CsvContent(rec: seq<(string, string)>): string {
    Join([CsvHeader] + CsvLines(rec), "\n")
  }
  // What the record holds.

  lemma {:induction false} GetNone<V>(rec: seq<(string, V)>, k: string)
    ensures Get(rec, k) == None <==> k !in KeysOf(rec)
    decreases |rec|
  {
    if |rec| > 0 {
      GetNone(rec[1..], k);
    }
  }

  /** No assignment to `k` after position `i`. */
  predicate LastFor<V>(writes: seq<(string, V)>, i: nat, k: string)
    requires i < |writes|
  {
    writes[i].0 == k && forall j :: i < j < |writes| ==> writes[j].0 != k
  }

  /** A key other than `__proto__` is in the record exactly when something
      was assigned to it, and its value is the one assigned last; `__proto__`
      is never in it. */
  lemma RecordHolds<V>(writes: seq<(string, V)>, k: string)
    ensures k in KeysOf(Record(writes)) <==> k in KeysOf(writes) && k != ProtoKey
    ensures k == ProtoKey ==> Get(Record(writes), k) == None
    ensures k != ProtoKey ==>
      forall i :: 0 <= i < |writes| && LastFor(writes, i, k) ==> Get(Record(writes), k) == Some(writes[i].1)
  {
    RecordKeys(writes, k);
    GetNone(Record(writes), k);
    if k != ProtoKey {
      forall i | 0 <= i < |writes| && LastFor(writes, i, k) ensures Get(Record(writes), k) == Some(writes[i].1) {
        RecordLast(writes, i, k);
      }
    }
  }

  lemma {:induction false} RecordKeys<V>(writes: seq<(string, V)>, k: string)
    ensures k in KeysOf(Record(writes)) <==> k in KeysOf(writes) && k != ProtoKey
    decreases |writes|
  {
    if |writes| > 0 {
      var n := |writes| - 1;
      var init := writes[..n];
      RecordKeys(init, k);
      KeysConcat(init, [writes[n]]);
      assert init + [writes[n]] == writes;
    }
  }

  lemma {:induction false} RecordLast<V>(writes: seq<(string, V)>, i: nat, k: string)
    requires i < |writes| && LastFor(writes, i, k) && k != ProtoKey
    ensures Get(Record(writes), k) == Some(writes[i].1)
    decreases |writes|
  {
    var n := |writes| - 1;
    if i < n {
      LastForInit(writes, i, k);
      RecordLast(writes[..n], i, k);
      RecordOther(writes, k);
    } else {
      RecordPut(writes);
    }
  }

  /** The last assignment to `k` before the final one is still the last in
      the assignments without the final one. */
  lemma LastForInit<V>(writes: seq<(string, V)>, i: nat, k: string)
    requires i < |writes| - 1 && LastFor(writes, i, k)
    ensures LastFor(writes[..|writes| - 1], i, k) && writes[|writes| - 1].0 != k
  {
    var init := writes[..|writes| - 1];
    forall j | i < j < |init| ensures init[j].0 != k {
      assert init[j] == writes[j];
    }
  }

  /** The final assignment, to a key other than `__proto__`, is stored. */
  lemma RecordPut<V>(writes: seq<(string, V)>)
    requires |writes| > 0 && writes[|writes| - 1].0 != ProtoKey
    ensures Get(Record(writes), writes[|writes| - 1].0) == Some(writes[|writes| - 1].1)
  {
  }

  /** The last assignment, to another key, leaves `k`'s value alone. */
  lemma RecordOther<V>(writes: seq<(string, V)>, k: string)
    requires |writes| > 0 && writes[|writes| - 1].0 != k
    ensures Get(Record(writes), k) == Get(Record(writes[..|writes| - 1]), k)
  {
  }

  lemma {:induction false} KeysConcat<V>(a: seq<(string, V)>, b: seq<(string, V)>)
    ensures KeysOf(a + b) == KeysOf(a) + KeysOf(b)
    decreases |a|
  {
    if |a| == 0 {
      assert a + b == b;
    } else {
      KeysConcat(a[1..], b);
      assert (a + b)[1..] == a[1..] + b;
    }
  }

  /** Assignments to distinct keys make a record holding exactly those that
      store something, in the order they were made. */
  lemma {:induction false} RecordOfDistinct<V>(writes: seq<(string, V)>)
    requires Distinct(KeysOf(writes))
    ensures Record(writes) == Stored(writes)
    decreases |writes|
  {
    if |writes| > 0 {
      var n := |writes| - 1;
      var init := writes[..n];
      KeysConcat(init, [writes[n]]);
      assert init + [writes[n]] == writes;
      assert KeysOf(writes)[n] == writes[n].0;
      assert Distinct(KeysOf(init)) by {
        forall i, j | 0 <= i < j < |init| ensures KeysOf(init)[i] != KeysOf(init)[j] {
          assert KeysOf(init)[i] == KeysOf(writes)[i] && KeysOf(init)[j] == KeysOf(writes)[j];
        }
      }
      RecordOfDistinct(init);
      assert writes[n].0 !in KeysOf(init) by {
        forall i | 0 <= i < |init| ensures KeysOf(init)[i] != writes[n].0 {
          assert KeysOf(init)[i] == KeysOf(writes)[i];
        }
      }
      if writes[n].0 != ProtoKey {
        RecordKeys(init, writes[n].0);
        PutNew(Record(init), writes[n].0, writes[n].1);
      }
    }
  }

  /** Assigning a new key appends it. */
  lemma {:induction false} PutNew<V>(rec: seq<(string, V)>, k: string, v: V)
    requires k !in KeysOf(rec)
    ensures Put(rec, k, v) == rec + [(k, v)]
    decreases |rec|
  {
    if |rec| > 0 {
      assert KeysOf(rec)[0] == rec[0].0;
      assert KeysOf(rec)[1..] == KeysOf(rec[1..]);
      PutNew(rec[1..], k, v);
      assert rec == [rec[0]] + rec[1..];
    }
  }
  // Reading a CSV line back.

  /** The text of a quoted CSV field up to its closing quote, with each
      doubled quote read as one, and what follows the closing quote. */
  function ReadQuoted(t: string): Option<(string, string)>
    decreases |t|
  {
    if |t| == 0 then None
    else if t[0] == '"' then
      if |t| >= 2 && t[1] == '"' then
        match ReadQuoted(t[2..])
        case None => None
        case Some(p) => Some(("\"" + p.0, p.1))
      else Some(("", t[1..]))
    else
      match ReadQuoted(t[1..])
      case None => None
      case Some(p) => Some(([t[0]] + p.0, p.1))
  }

  /** An escaped text followed by a closing quote reads back as the text. */
  lemma {:induction false} ReadEscaped(s: string, rest: string)
    requires |rest| == 0 || rest[0] != '"'
    ensures ReadQuoted(Escape(s) + "\"" + rest) == Some((s, rest))
    decreases |s|
  {
    if |s| == 0 {
      assert Escape(s) + "\"" + rest == "\"" + rest;
      assert ("\"" + rest)[1..] == rest;
    } else {
      ReadEscaped(s[1..], rest);
      var t := Escape(s) + "\"" + rest;
      if s[0] == '"' {
        assert t == "\"\"" + (Escape(s[1..]) + "\"" + rest);
        assert t[2..] == Escape(s[1..]) + "\"" + rest;
      } else {
        assert t == [s[0]] + (Escape(s[1..]) + "\"" + rest);
        assert t[1..] == Escape(s[1..]) + "\"" + rest;
      }
      assert s == [s[0]] + s[1..];
    }
  }

  /** Text without a quote is written as it is. */
  lemma {:induction false} NoQuoteEscape(s: string)
    requires '"' !in s
    ensures Escape(s) == s
    decreases |s|
  {
    if |s| > 0 {
      NoQuoteEscape(s[1..]);
      assert s == [s[0]] + s[1..];
    }
  }

  /** A line of two quoted fields separated by a comma. */
  function ParseLine(line: string): Option<(string, string)> {
    if |line| == 0 || line[0] != '"' then None
    else
      match ReadQuoted(line[1..])
      case None => None
      case Some(first) =>
        var rest := first.1;
        if |rest| < 2 || rest[0] != ',' || rest[1] != '"' then None
        else
          match ReadQuoted(rest[2..])
          case None => None
          case Some(second) => if second.1 == "" then Some((first.0, second.0)) else None
  }

  /** Two escaped fields, quoted and separated by a comma. */
  function QuotedPair(a: string, b: string): string {
    "\"" + Escape(a) + "\",\"" + Escape(b) + "\""
  }

  lemma QuotedPairReads(a: string, b: string)
    ensures ParseLine(QuotedPair(a, b)) == Some((a, b))
  {
    var tail := ",\"" + Escape(b) + "\"";
    var line := QuotedPair(a, b);
    assert line[1..] == Escape(a) + "\"" + tail;
    ReadEscaped(a, tail);
    assert tail[2..] == Escape(b) + "\"" + "";
    ReadEscaped(b, "");
  }

  /** Each data line reads back as its field and its value with the line
      breaks joined: quoting loses nothing. */
  lemma CsvLineReads(field: string, value: string)
    ensures ParseLine(CsvLine(field, value)) == Some((field, JoinLines(value)))
  {
    assert CsvLine(field, value) == QuotedPair(field, JoinLines(value));
    QuotedPairReads(field, JoinLines(value));
  }

  /** Doubling quotes adds and removes no other character. */
  lemma {:induction false} EscapeKeeps(s: string, c: char)
    requires c != '"'
    ensures c in Escape(s) <==> c in s
    decreases |s|
  {
    if |s| > 0 {
      EscapeKeeps(s[1..], c);
      assert s == [s[0]] + s[1..];
      var head := if s[0] == '"' then "\"\"" else [s[0]];
      assert Escape(s) == head + Escape(s[1..]);
    }
  }

  /** Joining lines free of line feeds and splitting at the line feeds gives
      the lines back. */
  lemma {:induction false} SplitJoined(parts: seq<string>)
    requires |parts| > 0
    requires forall k :: 0 <= k < |parts| ==> '\n' !in parts[k]
    ensures Split(Join(parts, "\n"), '\n') == parts
    decreases |parts|
  {
    if |parts| == 1 {
      SplitNone(parts[0], '\n');
    } else {
      SplitJoined(parts[1..]);
      assert Join(parts, "\n") == parts[0] + ['\n'] + Join(parts[1..], "\n");
      SplitFirst(parts[0], '\n', Join(parts[1..], "\n"));
      assert parts == [parts[0]] + parts[1..];
    }
  }

  /** When no field holds a line feed, the file is the header line followed
      by exactly one line per record entry, in record order. */
  lemma CsvLinesSplit(rec: seq<(string, string)>)
    requires forall k :: 0 <= k < |rec| ==> '\n' !in rec[k].0
    ensures Split(CsvContent(rec), '\n') == [CsvHeader] + CsvLines(rec)
    ensures |Split(CsvContent(rec), '\n')| == |rec| + 1
  {
    var parts := [CsvHeader] + CsvLines(rec);
    forall k | 0 <= k < |parts| ensures '\n' !in parts[k] {
      if k > 0 {
        var e := rec[k - 1];
        EscapeKeeps(e.0, '\n');
        EscapeKeeps(JoinLines(e.1), '\n');
        assert parts[k] == "\"" + Escape(e.0) + "\",\"" + Escape(JoinLines(e.1)) + "\"";
      }
    }
    SplitJoined(parts);
  }

  /** Answers holding only a top-level `__proto__` text export the header
      line alone: the one assignment stores nothing. */
  lemma ProtoAnswerHeaderOnly(t: string)
    ensures Flatten(Obj([(ProtoKey, Str(t))])) == []
    ensures CsvContent(Flatten(Obj([(ProtoKey, Str(t))]))) == CsvHeader
  {
    var v := Obj([(ProtoKey, Str(t))]);
    var w := [(ProtoKey, LeafText(Str(t)))];
    assert !IsLeaf(v);
    assert KeyPath("", ProtoKey) == ProtoKey;
    var blocks := seq(1, i requires 0 <= i < 1 => Writes(v.fields[i].1, KeyPath("", v.fields[i].0)));
    assert blocks == [w];
    assert [w][1..] == [];
    assert Flat([w]) == w + Flat<(string, string)>([]);
    assert Writes(v, "") == w;
    assert w[..0] == [];
    assert w[|w| - 1].0 == ProtoKey;
    assert Record(w) == Record(w[..0]);
  }
}
