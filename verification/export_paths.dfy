/**
 * The flattened export seen through structured paths: every assignment
 * `flattenSurveyData` makes is the rendering of one leaf of the answers,
 * with its path of keys and indices, so answers whose keys are plain
 * names give one CSV line per leaf.
 */
module ExportPaths {
  import opened Options
  import opened JsText
  import opened Numbers
  import opened Values
  import opened Paths
  import opened SeqUtil
  import opened Export

  /** The leaves of a value below `p`, with their paths, in visiting
      order; an empty or `null` root has none. */
  function Leaves(v: Value, p: Path): seq<(Path, Value)>
    decreases v
  {
    if IsLeaf(v) then
      if p == [] && RootSkipped(v) then [] else [(p, v)]
    else
      match v
      case Arr(items) =>
        Flat(seq(|items|, i requires 0 <= i < |items| => Leaves(items[i], p + [Index(i)])))
      case Obj(fields) =>
        Flat(seq(|fields|, i requires 0 <= i < |fields| => Leaves(fields[i].1, p + [Key(fields[i].0)])))
  }

  /** Each leaf as the assignment it makes. */
  function Shown(ls: seq<(Path, Value)>): (r: seq<(string, string)>)
    ensures |r| == |ls|
  {
    seq(|ls|, k requires 0 <= k < |ls| => (Render(ls[k].0), LeafText(ls[k].1)))
  }

  /** The leaves whose assignment stores something, in order: all but one
      whose path text is `__proto__`. */
  function Kept(ls: seq<(Path, Value)>): (r: seq<(Path, Value)>)
    ensures forall x :: x in r ==> x in ls
    ensures forall k :: 0 <= k < |r| ==> Render(r[k].0) != ProtoKey
  {
    if |ls| == 0 then []
    else
      var n := |ls| - 1;
      if Render(ls[n].0) == ProtoKey then Kept(ls[..n]) else Kept(ls[..n]) + [ls[n]]
  }

  /** Every property name in the value is a plain name. */
  predicate KeysOk(v: Value)
    decreases v
  {
    match v
    case Arr(items) => forall i :: 0 <= i < |items| ==> KeysOk(items[i])
    case Obj(fields) => forall i :: 0 <= i < |fields| ==> KeyOk(fields[i].0) && KeysOk(fields[i].1)
    case _ => true
  }

  // Rendering a longer path.

  lemma {:induction false} RenderFromConcat(a: Path, b: Path, first: bool)
    ensures RenderFrom(a + b, first) == RenderFrom(a, first) + RenderFrom(b, first && |a| == 0)
    decreases |a|
  {
    if |a| == 0 {
      assert a + b == b;
    } else {
      assert (a + b)[0] == a[0] && (a + b)[1..] == a[1..] + b;
      RenderFromConcat(a[1..], b, false);
    }
  }

  lemma RenderEmpty(p: Path)
    requires WellFormed(p)
    ensures Render(p) == "" <==> p == []
  {
    if |p| > 0 {
      assert p[0].Key? ==> KeyOk(p[0].name);
      assert |SegText(p[0], true)| > 0;
    }
  }

  lemma RenderIndex(p: Path, i: nat)
    ensures Render(p + [Index(i)]) == ItemPath(Render(p), i)
  {
    RenderFromConcat(p, [Index(i)], true);
    var tail := RenderFrom([Index(i)], |p| == 0);
    assert tail == "[" + NatToString(i) + "]" by {
      assert [Index(i)][1..] == [];
    }
    assert Render(p) + tail == ItemPath(Render(p), i);
  }

  lemma RenderKey(p: Path, k: string)
    requires WellFormed(p)
    ensures Render(p + [Key(k)]) == KeyPath(Render(p), k)
  {
    RenderFromConcat(p, [Key(k)], true);
    RenderEmpty(p);
    assert RenderFrom([Key(k)], |p| == 0) == SegText(Key(k), |p| == 0) + RenderFrom([], false);
  }

  lemma {:induction false} ShownFlat(blocks: seq<seq<(Path, Value)>>)
    ensures Shown(Flat(blocks)) == Flat(seq(|blocks|, i requires 0 <= i < |blocks| => Shown(blocks[i])))
    decreases |blocks|
  {
    if |blocks| > 0 {
      ShownFlat(blocks[1..]);
      var a := blocks[0];
      var b := Flat(blocks[1..]);
      assert Shown(a + b) == Shown(a) + Shown(b);
      var xs := seq(|blocks|, i requires 0 <= i < |blocks| => Shown(blocks[i]));
      assert xs[1..] == seq(|blocks[1..]|, i requires 0 <= i < |blocks[1..]| => Shown(blocks[1..][i]));
    }
  }

  /** The assignments of the traversal are the leaves, each under the text
      of its path: `path[i]` for an element, `path.key` (or `key` at the
      root) for a property, children in index or key order. */
  lemma {:induction false} WritesAreLeaves(v: Value, p: Path)
    requires WellFormed(p) && KeysOk(v)
    ensures Writes(v, Render(p)) == Shown(Leaves(v, p))
    decreases v, 1
  {
    RenderEmpty(p);
    if !IsLeaf(v) {
      match v
      case Arr(items) => ItemsAreLeaves(v, items, p);
      case Obj(fields) => FieldsAreLeaves(v, fields, p);
    }
  }

  lemma {:induction false} ItemsAreLeaves(v: Value, items: seq<Value>, p: Path)
    requires v == Arr(items) && !IsLeaf(v)
    requires WellFormed(p) && KeysOk(v)
    ensures Writes(v, Render(p)) == Shown(Leaves(v, p))
    decreases v, 0
  {
    var blocks := seq(|items|, i requires 0 <= i < |items| => Leaves(items[i], p + [Index(i)]));
    var writes := seq(|items|, i requires 0 <= i < |items| => Writes(items[i], ItemPath(Render(p), i)));
    assert Leaves(v, p) == Flat(blocks);
    assert Writes(v, Render(p)) == Flat(writes);
    forall i | 0 <= i < |items|
      ensures writes[i] == Shown(blocks[i])
    {
      assert items[i] < v;
      RenderIndex(p, i);
      WellFormedConcat(p, [Index(i)]);
      WritesAreLeaves(items[i], p + [Index(i)]);
    }
    ShownFlat(blocks);
    assert writes == seq(|blocks|, i requires 0 <= i < |blocks| => Shown(blocks[i]));
  }

  lemma {:induction false} FieldsAreLeaves(v: Value, fields: seq<(string, Value)>, p: Path)
    requires v == Obj(fields) && !IsLeaf(v)
    requires WellFormed(p) && KeysOk(v)
    ensures Writes(v, Render(p)) == Shown(Leaves(v, p))
    decreases v, 0
  {
    var blocks := seq(|fields|, i requires 0 <= i < |fields| => Leaves(fields[i].1, p + [Key(fields[i].0)]));
    var writes := seq(|fields|, i requires 0 <= i < |fields| => Writes(fields[i].1, KeyPath(Render(p), fields[i].0)));
    assert Leaves(v, p) == Flat(blocks);
    assert Writes(v, Render(p)) == Flat(writes);
    forall i | 0 <= i < |fields|
      ensures writes[i] == Shown(blocks[i])
    {
      assert fields[i].1 < v;
      RenderKey(p, fields[i].0);
      WellFormedConcat(p, [Key(fields[i].0)]);
      WritesAreLeaves(fields[i].1, p + [Key(fields[i].0)]);
    }
    ShownFlat(blocks);
    assert writes == seq(|blocks|, i requires 0 <= i < |blocks| => Shown(blocks[i]));
  }

  // Distinct leaves.

  /** No object in the value repeats a property name. */
  predicate UniqueKeys(v: Value)
    decreases v
  {
    match v
    case Arr(items) => forall i :: 0 <= i < |items| ==> UniqueKeys(items[i])
    case Obj(fields) =>
      (forall i, j :: 0 <= i < j < |fields| ==> fields[i].0 != fields[j].0)
      && forall i :: 0 <= i < |fields| ==> UniqueKeys(fields[i].1)
    case _ => true
  }

  /** No property name in the value holds a line feed. */
  predicate NoBreakKeys(v: Value)
    decreases v
  {
    match v
    case Arr(items) => forall i :: 0 <= i < |items| ==> NoBreakKeys(items[i])
    case Obj(fields) => forall i :: 0 <= i < |fields| ==> '\n' !in fields[i].0 && NoBreakKeys(fields[i].1)
    case _ => true
  }

  predicate NoBreakPath(p: Path) {
    forall k :: 0 <= k < |p| ==> p[k].Key? ==> '\n' !in p[k].name
  }

  predicate DistinctPaths(ls: seq<(Path, Value)>) {
    forall i, j :: 0 <= i < j < |ls| ==> ls[i].0 != ls[j].0
  }

  /** Every leaf lies below `p`, and its path is well formed and free of
      line feeds when `p` and the names in `v` are. */
  lemma {:induction false} LeavesUnder(v: Value, p: Path)
    ensures forall l :: l in Leaves(v, p) ==> p <= l.0
    ensures WellFormed(p) && KeysOk(v) ==> forall l :: l in Leaves(v, p) ==> WellFormed(l.0)
    ensures NoBreakPath(p) && NoBreakKeys(v) ==> forall l :: l in Leaves(v, p) ==> NoBreakPath(l.0)
    decreases v
  {
    if !IsLeaf(v) {
      match v
      case Arr(items) =>
        var blocks := seq(|items|, i requires 0 <= i < |items| => Leaves(items[i], p + [Index(i)]));
        assert Leaves(v, p) == Flat(blocks);
        forall l | l in Leaves(v, p)
          ensures p <= l.0
          ensures WellFormed(p) && KeysOk(v) ==> WellFormed(l.0)
          ensures NoBreakPath(p) && NoBreakKeys(v) ==> NoBreakPath(l.0)
        {
          var i :| 0 <= i < |blocks| && l in blocks[i];
          var q := p + [Index(i)];
          LeavesUnder(items[i], q);
          WellFormedConcat(p, [Index(i)]);
          assert p <= q;
          assert NoBreakPath(p) ==> NoBreakPath(q) by {
            assert forall k :: 0 <= k < |p| ==> q[k] == p[k];
          }
        }
      case Obj(fields) =>
        var blocks := seq(|fields|, i requires 0 <= i < |fields| => Leaves(fields[i].1, p + [Key(fields[i].0)]));
        assert Leaves(v, p) == Flat(blocks);
        forall l | l in Leaves(v, p)
          ensures p <= l.0
          ensures WellFormed(p) && KeysOk(v) ==> WellFormed(l.0)
          ensures NoBreakPath(p) && NoBreakKeys(v) ==> NoBreakPath(l.0)
        {
          var i :| 0 <= i < |blocks| && l in blocks[i];
          var q := p + [Key(fields[i].0)];
          LeavesUnder(fields[i].1, q);
          WellFormedConcat(p, [Key(fields[i].0)]);
          assert p <= q;
          assert NoBreakPath(p) && NoBreakKeys(v) ==> NoBreakPath(q) by {
            assert forall k :: 0 <= k < |p| ==> q[k] == p[k];
            assert q[|p|] == Key(fields[i].0);
          }
        }
    }
  }

  /** Blocks of leaves lying below distinct segments after `p`, each with
      distinct paths, have distinct paths together. */
  lemma {:induction false} FlatDistinct(blocks: seq<seq<(Path, Value)>>, p: Path, segs: seq<Seg>)
    requires |segs| == |blocks|
    requires forall i, j :: 0 <= i < j < |segs| ==> segs[i] != segs[j]
    requires forall i :: 0 <= i < |blocks| ==> DistinctPaths(blocks[i])
    requires forall i, l :: 0 <= i < |blocks| && l in blocks[i] ==> p + [segs[i]] <= l.0
    ensures DistinctPaths(Flat(blocks))
    decreases |blocks|
  {
    if |blocks| > 0 {
      var a: seq<(Path, Value)> := blocks[0];
      var tail: seq<seq<(Path, Value)>> := blocks[1..];
      FlatDistinct(tail, p, segs[1..]);
      var rest: seq<(Path, Value)> := Flat(tail);
      assert Flat(blocks) == a + rest;
      forall i: int, j: int | 0 <= i < |a| <= j < |a| + |rest|
        ensures (a + rest)[i].0 != (a + rest)[j].0
      {
        var l := rest[j - |a|];
        assert l in rest;
        var m :| 0 <= m < |tail| && l in tail[m];
        assert l in blocks[m + 1];
        assert (p + [segs[0]])[|p|] == segs[0];
        assert (p + [segs[m + 1]])[|p|] == segs[m + 1];
        assert a[i] in blocks[0];
      }
    }
  }

  /** Leaves have distinct paths when no object repeats a name. */
  lemma {:induction false} LeavesDistinct(v: Value, p: Path)
    requires UniqueKeys(v)
    ensures DistinctPaths(Leaves(v, p))
    decreases v
  {
    if !IsLeaf(v) {
      match v
      case Arr(items) =>
        var blocks := seq(|items|, i requires 0 <= i < |items| => Leaves(items[i], p + [Index(i)]));
        var segs := seq(|items|, i requires 0 <= i < |items| => Index(i));
        forall i | 0 <= i < |items| ensures DistinctPaths(blocks[i]) && forall l: (Path, Value) :: l in blocks[i] ==> p + [segs[i]] <= l.0 {
          LeavesDistinct(items[i], p + [Index(i)]);
          LeavesUnder(items[i], p + [Index(i)]);
        }
        FlatDistinct(blocks, p, segs);
      case Obj(fields) =>
        var blocks := seq(|fields|, i requires 0 <= i < |fields| => Leaves(fields[i].1, p + [Key(fields[i].0)]));
        var segs := seq(|fields|, i requires 0 <= i < |fields| => Key(fields[i].0));
        forall i | 0 <= i < |fields| ensures DistinctPaths(blocks[i]) && forall l: (Path, Value) :: l in blocks[i] ==> p + [segs[i]] <= l.0 {
          LeavesDistinct(fields[i].1, p + [Key(fields[i].0)]);
          LeavesUnder(fields[i].1, p + [Key(fields[i].0)]);
        }
        FlatDistinct(blocks, p, segs);
    }
  }

  lemma {:induction false} RenderNoBreak(p: Path, first: bool)
    requires NoBreakPath(p)
    ensures '\n' !in RenderFrom(p, first)
    decreases |p|
  {
    if |p| > 0 {
      RenderNoBreak(p[1..], false);
      match p[0]
      case Key(name) =>
      case Index(i) =>
        var d := NatToString(i);
        assert '\n' !in d by {
          assert forall k :: 0 <= k < |d| ==> '0' <= d[k] <= '9';
        }
    }
  }

  // The export as a whole.

  /** Keeping the leaves that store something and keeping the assignments
      that do agree. */
  lemma {:induction false} ShownKept(ls: seq<(Path, Value)>)
    ensures Shown(Kept(ls)) == Stored(Shown(ls))
    decreases |ls|
  {
    if |ls| > 0 {
      var n := |ls| - 1;
      ShownKept(ls[..n]);
      assert Shown(ls)[..n] == Shown(ls[..n]);
      var kept := Kept(ls[..n]);
      if Render(ls[n].0) != ProtoKey {
        assert Shown(kept + [ls[n]]) == Shown(kept) + [Shown(ls)[n]];
      }
    }
  }

  /** Answers without a top-level `__proto__` leaf lose no leaf. */
  lemma {:induction false} KeptAll(ls: seq<(Path, Value)>)
    requires forall k :: 0 <= k < |ls| ==> Render(ls[k].0) != ProtoKey
    ensures Kept(ls) == ls
    decreases |ls|
  {
    if |ls| > 0 {
      var n := |ls| - 1;
      KeptAll(ls[..n]);
      assert ls[..n] + [ls[n]] == ls;
    }
  }

  /** With plain property names the only path that renders as
      `__proto__` is the top-level property of that name, so every other
      leaf is kept. */
  lemma OnlyProtoLost(v: Value)
    requires KeysOk(v)
    ensures (forall k :: 0 <= k < |Leaves(v, [])| ==> Leaves(v, [])[k].0 != [Key(ProtoKey)]) ==>
      Kept(Leaves(v, [])) == Leaves(v, [])
  {
    var ls := Leaves(v, []);
    if forall k :: 0 <= k < |ls| ==> ls[k].0 != [Key(ProtoKey)] {
      LeavesUnder(v, []);
      ProtoRender();
      forall k | 0 <= k < |ls| ensures Render(ls[k].0) != ProtoKey {
        assert ls[k] in ls;
        if Render(ls[k].0) == ProtoKey {
          RenderInjective(ls[k].0, [Key(ProtoKey)]);
        }
      }
      KeptAll(ls);
    }
  }

  lemma ProtoRender()
    ensures WellFormed([Key(ProtoKey)]) && Render([Key(ProtoKey)]) == ProtoKey
  {
    assert KeyOk(ProtoKey);
    RenderKey([], ProtoKey);
    assert [] + [Key(ProtoKey)] == [Key(ProtoKey)];
  }

  /** When every property name is a plain name and no object repeats one,
      the flattened record is the list of leaves that store something, in
      visiting order, each under the text of its path: no assignment
      overwrites another. */
  lemma FlattenIsLeaves(v: Value)
    requires KeysOk(v) && UniqueKeys(v)
    ensures Flatten(v) == Shown(Kept(Leaves(v, [])))
  {
    FlattenIsStored(v);
    ShownKept(Leaves(v, []));
  }

  lemma FlattenIsStored(v: Value)
    requires KeysOk(v) && UniqueKeys(v)
    ensures Flatten(v) == Stored(Shown(Leaves(v, [])))
  {
    var ls := Leaves(v, []);
    assert Render([]) == "";
    WritesAreLeaves(v, []);
    LeavesUnder(v, []);
    LeavesDistinct(v, []);
    var writes := Shown(ls);
    KeysOfAt(writes);
    forall i, j | 0 <= i < j < |writes| ensures KeysOf(writes)[i] != KeysOf(writes)[j] {
      assert ls[i] in ls && ls[j] in ls;
      if Render(ls[i].0) == Render(ls[j].0) {
        RenderInjective(ls[i].0, ls[j].0);
      }
    }
    RecordOfDistinct(writes);
  }

  lemma {:induction false} KeysOfAt<V>(rec: seq<(string, V)>)
    ensures forall k :: 0 <= k < |rec| ==> KeysOf(rec)[k] == rec[k].0
    decreases |rec|
  {
    if |rec| > 0 {
      KeysOfAt(rec[1..]);
    }
  }

  /** The CSV file then holds the header and one line per stored leaf,
      which reads back as the leaf's path text and its value with line
      breaks turned to spaces. */
  lemma ExportLinePerLeaf(v: Value)
    requires KeysOk(v) && UniqueKeys(v) && NoBreakKeys(v)
    ensures |Split(CsvContent(Flatten(v)), '\n')| == |Kept(Leaves(v, []))| + 1
    ensures forall k :: 0 <= k < |Kept(Leaves(v, []))| ==>
      ParseLine(Split(CsvContent(Flatten(v)), '\n')[k + 1])
        == Some((Render(Kept(Leaves(v, []))[k].0), JoinLines(LeafText(Kept(Leaves(v, []))[k].1))))
  {
    var ls := Kept(Leaves(v, []));
    FlattenIsLeaves(v);
    var rec := Flatten(v);
    LeavesUnder(v, []);
    forall k | 0 <= k < |rec| ensures '\n' !in rec[k].0 {
      assert ls[k] in ls;
      assert ls[k] in Leaves(v, []);
      RenderNoBreak(ls[k].0, true);
    }
    CsvLinesSplit(rec);
    forall k | 0 <= k < |ls|
      ensures ParseLine(([CsvHeader] + CsvLines(rec))[k + 1]) == Some((Render(ls[k].0), JoinLines(LeafText(ls[k].1))))
    {
      CsvLineReads(rec[k].0, rec[k].1);
    }
  }
}
