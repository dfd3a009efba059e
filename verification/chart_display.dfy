/**
 * The chart view's data builders: pie slices per category, buckets per X
 * label with one series per group or measure, scatter points, and the rule
 * that decides whether a chart is drawn.
 */
module ChartDisplay {
  import opened Options
  import opened Values
  import opened SeqUtil
  import opened Export
  import opened ExcelTypes
  import opened ChartData

  const Unspecified: string := "Unspecified"

  const NoCategory: string := "Select a category column for the pie chart."
  const NoValues: string := "No values available for the selected columns."
  const NoXAxis: string := "Select a column for the X axis."
  const NoYAxis: string := "Select a numeric column for the Y axis."
  const NoScatterKeys: string := "Scatter plots require numeric X and Y columns."
  const NoPoints: string := "No numeric data points available for the selected columns."
  const NoRows: string := "Upload a worksheet and select the columns to visualise results."

  /** One X bucket: the raw X value of its first row and the amount per
      series, in first-insertion order. */
  datatype Bucket = Bucket(x: Value, series: seq<(string, real)>)

  /** The chart data: pie slices `{name, value}`, categorical buckets (each
      kept with its X label), or scatter points. */
  datatype Drawn =
    | Nothing
    | Slices(slices: seq<(string, real)>)
    | Buckets(buckets: seq<(string, Bucket)>)
    | Points(points: seq<(real, real)>)

  /** `data.length`. */
  function Size(d: Drawn): nat {
    match d
    case Nothing => 0
    case Slices(s) => |s|
    case Buckets(b) => |b|
    case Points(p) => |p|
  }

  /** `BuiltChartData`. */
  datatype Built = Built(data: Drawn, seriesKeys: seq<string>, xDataKey: string, warnings: seq<string>)

  /** A category or group label: blank cells are `Unspecified`, others
      `String(v)`. */
  function LabelOf(x: Option<Value>): string {
    if IsBlank(x) then Unspecified else ToText(x.value)
  }

  /** The label of a row's cell in column `k`. */
  function LabelKey(k: string): Row -> string {
    (row: Row) => LabelOf(Cell(row, k))
  }

  /** The rows whose label is `c`. */
  function With(keyOf: Row -> string, c: string): Row -> bool {
    (row: Row) => keyOf(row) == c
  }

  // Pie charts.

  /** Each row counts 1 when the aggregate is `count` or no value column is
      chosen. */
  predicate PieCounts(c: ChartConfig) {
    c.aggregate == Count || !Given(c.valueKey)
  }

  /** What a row adds to its slice: 1, or its parsed value, or nothing when
      the value does not parse. */
  function PieDelta(c: ChartConfig): Row -> Option<real> {
    if PieCounts(c) then (row: Row) => Some(1.0)
    else
      var k := c.valueKey.value;
      (row: Row) => ParseNumeric(Cell(row, k))
  }

  /** `buildPieData`. */
  function BuildPie(rows: seq<Row>, c: ChartConfig): (b: Built)
    ensures !Given(c.categoryKey) ==> b.data == Nothing && b.warnings == [NoCategory] && b.seriesKeys == []
    ensures Given(c.categoryKey) ==> b.data.Slices? && b.seriesKeys == ["value"]
    ensures b.xDataKey == "name"
    ensures b.warnings == [] <==> Size(b.data) > 0
    ensures |b.warnings| <= 1
  {
    if !Given(c.categoryKey) then Built(Nothing, [], "name", [NoCategory])
    else
      var slices := Tally([], rows, LabelKey(c.categoryKey.value), PieDelta(c));
      Built(Slices(slices), ["value"], "name", if |slices| == 0 then [NoValues] else [])
  }

  /** There is one slice per category that received a value, in the order
      the categories first do, and each slice holds what its rows add. */
  lemma PieSlices(rows: seq<Row>, c: ChartConfig)
    requires Given(c.categoryKey)
    ensures var s := BuildPie(rows, c).data.slices;
      var keyOf := LabelKey(c.categoryKey.value);
      && KeysOf(s) == Dedup([], Contributors(rows, keyOf, PieDelta(c)))
      && Distinct(KeysOf(s))
      && forall name :: Amount(s, name) == Share(rows, name, keyOf, PieDelta(c))
  {
    var keyOf := LabelKey(c.categoryKey.value);
    var s := Tally([], rows, keyOf, PieDelta(c));
    TallyKeys([], rows, keyOf, PieDelta(c));
    DedupDistinct([], Contributors(rows, keyOf, PieDelta(c)));
    forall name ensures Amount(s, name) == Share(rows, name, keyOf, PieDelta(c)) {
      TallyAmount([], rows, keyOf, PieDelta(c), name);
    }
  }

  /** The labels of all rows, in row order. */
  function Labels(rows: seq<Row>, keyOf: Row -> string): (ls: seq<string>)
    ensures |ls| == |rows|
    ensures forall i :: 0 <= i < |rows| ==> ls[i] == keyOf(rows[i])
  {
    seq(|rows|, i requires 0 <= i < |rows| => keyOf(rows[i]))
  }

  lemma {:induction false} ContributorsAll(rows: seq<Row>, keyOf: Row -> string, delta: Row -> Option<real>)
    requires forall r :: delta(r).Some?
    ensures Contributors(rows, keyOf, delta) == Labels(rows, keyOf)
    decreases |rows|
  {
    if |rows| > 0 {
      ContributorsAll(rows[1..], keyOf, delta);
    }
  }

  lemma {:induction false} ShareCount(rows: seq<Row>, name: string, keyOf: Row -> string, delta: Row -> Option<real>)
    requires forall r :: delta(r) == Some(1.0)
    ensures Share(rows, name, keyOf, delta) == |Filter(With(keyOf, name), rows)| as real
    decreases |rows|
  {
    if |rows| > 0 {
      ShareCount(rows[1..], name, keyOf, delta);
    }
  }

  /** Counting: every category of the rows gets a slice, in first-seen
      order; each slice is its number of rows, and the slices add up to the
      number of rows. */
  lemma PieCountsRows(rows: seq<Row>, c: ChartConfig)
    requires Given(c.categoryKey) && PieCounts(c)
    ensures var s := BuildPie(rows, c).data.slices;
      var keyOf := LabelKey(c.categoryKey.value);
      && KeysOf(s) == Dedup([], Labels(rows, keyOf))
      && (forall name :: Amount(s, name) == |Filter(With(keyOf, name), rows)| as real)
      && Total(s) == |rows| as real
  {
    var keyOf := LabelKey(c.categoryKey.value);
    var delta := PieDelta(c);
    assert forall r :: delta(r) == Some(1.0);
    PieSlices(rows, c);
    ContributorsAll(rows, keyOf, delta);
    forall name ensures Share(rows, name, keyOf, delta) == |Filter(With(keyOf, name), rows)| as real {
      ShareCount(rows, name, keyOf, delta);
    }
    TallyTotal([], rows, keyOf, delta);
    ShareAllCount(rows, delta);
  }

  // Bar, line and area charts.

  /** A row takes part when its X cell is not blank. */
  predicate Kept(row: Row, xKey: string) {
    !IsBlank(Cell(row, xKey))
  }

  /** The bucket label of a row: `String(x)` of its X cell. */
  function XLabel(row: Row, xKey: string): string {
    var x := Cell(row, xKey);
    if x.Some? then ToText(x.value) else ""
  }

  function XKey(xKey: string): Row -> string {
    (row: Row) => XLabel(row, xKey)
  }

  /** The rows that land in the bucket labelled `l`. */
  function InBucket(xKey: string, l: string): Row -> bool {
    (row: Row) => Kept(row, xKey) && XLabel(row, xKey) == l
  }

  /** The labels of the rows that take part, in row order. */
  function KeptLabels(rows: seq<Row>, xKey: string, keyOf: Row -> string): seq<string>
    decreases |rows|
  {
    if |rows| == 0 then []
    else (if Kept(rows[0], xKey) then [keyOf(rows[0])] else []) + KeptLabels(rows[1..], xKey, keyOf)
  }

  /** The series a row adds to: its group label, or the single series
      `Count`, or the Y column's name (`Value` when there is none). */
  function SeriesKey(c: ChartConfig): Row -> string {
    if Given(c.groupKey) then LabelKey(c.groupKey.value)
    else
      var y := Nth(c.yKeys, 0);
      var target := if c.aggregate == Count then "Count" else if y.Some? then y.value else "Value";
      (row: Row) => target
  }

  /** What a row adds to its series: 1 when counting, its parsed Y value
      when summing, nothing when that does not parse. */
  function SeriesDelta(c: ChartConfig): Row -> Option<real> {
    var y := Nth(c.yKeys, 0);
    if c.aggregate == Count then (row: Row) => Some(1.0)
    else if Given(y) then
      var k := y.value;
      (row: Row) => ParseNumeric(Cell(row, k))
    else (row: Row) => None
  }

  /** The series of the bucket labelled `l`, empty when there is none. */
  function BucketSeries(g: seq<(string, Bucket)>, l: string): seq<(string, real)> {
    match Get(g, l)
    case Some(b) => b.series
    case None => []
  }

  /** One row of the `forEach`: its bucket is fetched or started with the
      row's raw X value, the row's amount is added under its series, and the
      bucket is stored back under the row's label. */
  function GroupRow(g: seq<(string, Bucket)>, row: Row, xKey: string, keyOf: Row -> string, delta: Row -> Option<real>): seq<(string, Bucket)>
    requires Kept(row, xKey)
  {
    var l := XLabel(row, xKey);
    var b := match Get(g, l) case Some(b) => b case None => Bucket(Cell(row, xKey).value, []);
    var d := delta(row);
    Put(g, l, if d.Some? then Bucket(b.x, Add(b.series, keyOf(row), d.value)) else b)
  }

  /** The rows folded into the buckets, skipping rows with a blank X. */
  function GroupFrom(g: seq<(string, Bucket)>, rows: seq<Row>, xKey: string, keyOf: Row -> string, delta: Row -> Option<real>): seq<(string, Bucket)>
    decreases |rows|
  {
    if |rows| == 0 then g
    else GroupFrom(if Kept(rows[0], xKey) then GroupRow(g, rows[0], xKey, keyOf, delta) else g, rows[1..], xKey, keyOf, delta)
  }

  /** `buildCategoricalData`; the series set is filled by the same pass
      that fills the buckets, here written as its own first-seen list. */
  function BuildCategorical(rows: seq<Row>, c: ChartConfig): (b: Built)
    ensures !Given(c.xKey) ==> b.data == Nothing && b.warnings == [NoXAxis] && b.xDataKey == ""
    ensures Given(c.xKey) && c.aggregate == Sum && !Given(Nth(c.yKeys, 0)) ==>
      b.data == Nothing && b.warnings == [NoYAxis] && b.xDataKey == c.xKey.value
    ensures Given(c.xKey) && !(c.aggregate == Sum && !Given(Nth(c.yKeys, 0))) ==>
      b.data.Buckets? && b.xDataKey == c.xKey.value
    ensures b.warnings == [] <==> Size(b.data) > 0
    ensures |b.warnings| <= 1
  {
    if !Given(c.xKey) then Built(Nothing, [], "", [NoXAxis])
    else
      var xKey := c.xKey.value;
      if c.aggregate == Sum && !Given(Nth(c.yKeys, 0)) then Built(Nothing, [], xKey, [NoYAxis])
      else
        var buckets := GroupFrom([], rows, xKey, SeriesKey(c), SeriesDelta(c));
        var series := Dedup([], KeptLabels(rows, xKey, SeriesKey(c)));
        Built(Buckets(buckets), series, xKey, if |buckets| == 0 then [NoValues] else [])
  }

  /** The bucket labels are those already present, then the labels of the
      rows taking part in first-seen order. */
  lemma {:induction false} GroupKeys(g: seq<(string, Bucket)>, rows: seq<Row>, xKey: string, keyOf: Row -> string, delta: Row -> Option<real>)
    ensures KeysOf(GroupFrom(g, rows, xKey, keyOf, delta)) == Dedup(KeysOf(g), KeptLabels(rows, xKey, XKey(xKey)))
    decreases |rows|
  {
    if |rows| > 0 {
      var r := rows[0];
      var g' := if Kept(r, xKey) then GroupRow(g, r, xKey, keyOf, delta) else g;
      GroupKeys(g', rows[1..], xKey, keyOf, delta);
      var rest := KeptLabels(rows[1..], xKey, XKey(xKey));
      if Kept(r, xKey) {
        assert KeptLabels(rows, xKey, XKey(xKey)) == [XLabel(r, xKey)] + rest;
        assert ([XLabel(r, xKey)] + rest)[1..] == rest;
      } else {
        assert KeptLabels(rows, xKey, XKey(xKey)) == rest;
      }
    }
  }

  /** The single pass over the rows gives each bucket exactly the tally of
      its own rows. */
  lemma {:induction false} GroupSeries(g: seq<(string, Bucket)>, rows: seq<Row>, xKey: string, keyOf: Row -> string, delta: Row -> Option<real>, l: string)
    ensures BucketSeries(GroupFrom(g, rows, xKey, keyOf, delta), l)
      == Tally(BucketSeries(g, l), Filter(InBucket(xKey, l), rows), keyOf, delta)
    decreases |rows|
  {
    if |rows| > 0 {
      var r := rows[0];
      var g' := if Kept(r, xKey) then GroupRow(g, r, xKey, keyOf, delta) else g;
      GroupSeries(g', rows[1..], xKey, keyOf, delta, l);
      var rest := Filter(InBucket(xKey, l), rows[1..]);
      if InBucket(xKey, l)(r) {
        assert Filter(InBucket(xKey, l), rows) == [r] + rest;
        assert ([r] + rest)[1..] == rest;
        var d := delta(r);
        assert BucketSeries(g', l) == if d.Some? then Add(BucketSeries(g, l), keyOf(r), d.value) else BucketSeries(g, l);
      } else {
        assert Filter(InBucket(xKey, l), rows) == rest;
        if Kept(r, xKey) {
          assert Get(g', l) == Get(g, l);
        }
      }
    }
  }

  /** A bucket keeps the raw X value of the first row that opened it. */
  lemma {:induction false} GroupFirstX(g: seq<(string, Bucket)>, rows: seq<Row>, xKey: string, keyOf: Row -> string, delta: Row -> Option<real>, l: string)
    ensures var inB := Filter(InBucket(xKey, l), rows);
      var out := Get(GroupFrom(g, rows, xKey, keyOf, delta), l);
      && (Get(g, l).Some? ==> out.Some? && out.value.x == Get(g, l).value.x)
      && (Get(g, l).None? && |inB| > 0 ==> out.Some? && Some(out.value.x) == Cell(inB[0], xKey))
      && (Get(g, l).None? && |inB| == 0 ==> out.None?)
    decreases |rows|
  {
    if |rows| > 0 {
      var r := rows[0];
      var g' := if Kept(r, xKey) then GroupRow(g, r, xKey, keyOf, delta) else g;
      GroupFirstX(g', rows[1..], xKey, keyOf, delta, l);
      var rest := Filter(InBucket(xKey, l), rows[1..]);
      if InBucket(xKey, l)(r) {
        assert Filter(InBucket(xKey, l), rows) == [r] + rest;
        assert Get(g', l).Some?;
        assert Get(g, l).None? ==> Some(Get(g', l).value.x) == Cell(r, xKey);
      } else {
        assert Filter(InBucket(xKey, l), rows) == rest;
        if Kept(r, xKey) {
          assert Get(g', l) == Get(g, l);
        }
      }
    }
  }

  /** There is one bucket per distinct X label, in first-seen order; each
      bucket starts from the X value of its first row and holds the tally
      of exactly its own rows. */
  lemma CategoricalBuckets(rows: seq<Row>, c: ChartConfig)
    requires Given(c.xKey) && !(c.aggregate == Sum && !Given(Nth(c.yKeys, 0)))
    ensures var xKey := c.xKey.value;
      var bs := BuildCategorical(rows, c).data.buckets;
      && KeysOf(bs) == Dedup([], KeptLabels(rows, xKey, XKey(xKey)))
      && Distinct(KeysOf(bs))
      && (forall l :: BucketSeries(bs, l) == Tally([], Filter(InBucket(xKey, l), rows), SeriesKey(c), SeriesDelta(c)))
      && (forall l :: |Filter(InBucket(xKey, l), rows)| > 0 ==>
           Get(bs, l).Some? && Some(Get(bs, l).value.x) == Cell(Filter(InBucket(xKey, l), rows)[0], xKey))
  {
    var xKey := c.xKey.value;
    GroupKeys([], rows, xKey, SeriesKey(c), SeriesDelta(c));
    DedupDistinct([], KeptLabels(rows, xKey, XKey(xKey)));
    forall l ensures BucketSeries(GroupFrom([], rows, xKey, SeriesKey(c), SeriesDelta(c)), l)
      == Tally([], Filter(InBucket(xKey, l), rows), SeriesKey(c), SeriesDelta(c))
    {
      GroupSeries([], rows, xKey, SeriesKey(c), SeriesDelta(c), l);
    }
    forall l | |Filter(InBucket(xKey, l), rows)| > 0
      ensures var out := Get(GroupFrom([], rows, xKey, SeriesKey(c), SeriesDelta(c)), l);
        out.Some? && Some(out.value.x) == Cell(Filter(InBucket(xKey, l), rows)[0], xKey)
    {
      GroupFirstX([], rows, xKey, SeriesKey(c), SeriesDelta(c), l);
    }
  }

  lemma {:induction false} DedupSame(seen: seq<string>, xs: seq<string>, t: string)
    requires forall i :: 0 <= i < |xs| ==> xs[i] == t
    ensures Dedup(seen, xs) == if |xs| == 0 || t in seen then seen else seen + [t]
    decreases |xs|
  {
    if |xs| > 0 {
      var next := if xs[0] in seen then seen else seen + [xs[0]];
      DedupSame(next, xs[1..], t);
    }
  }

  lemma {:induction false} KeptLabelsSame(rows: seq<Row>, xKey: string, keyOf: Row -> string, t: string)
    requires forall r :: keyOf(r) == t
    ensures forall i :: 0 <= i < |KeptLabels(rows, xKey, keyOf)| ==> KeptLabels(rows, xKey, keyOf)[i] == t
    ensures |KeptLabels(rows, xKey, keyOf)| == 0 <==> forall i :: 0 <= i < |rows| ==> !Kept(rows[i], xKey)
    decreases |rows|
  {
    if |rows| > 0 {
      KeptLabelsSame(rows[1..], xKey, keyOf, t);
      assert forall i :: 1 <= i < |rows| ==> rows[i] == rows[1..][i - 1];
    }
  }

  /** Without a group column there is one series: `Count` when counting,
      the Y column when summing; it is listed once some row has an X. */
  lemma SingleSeries(rows: seq<Row>, c: ChartConfig)
    requires Given(c.xKey) && !Given(c.groupKey) && !(c.aggregate == Sum && !Given(Nth(c.yKeys, 0)))
    ensures var keys := BuildCategorical(rows, c).seriesKeys;
      var target := if c.aggregate == Count then "Count" else c.yKeys[0];
      && ((exists i :: 0 <= i < |rows| && Kept(rows[i], c.xKey.value)) ==> keys == [target])
      && ((forall i :: 0 <= i < |rows| ==> !Kept(rows[i], c.xKey.value)) ==> keys == [])
  {
    var target := if c.aggregate == Count then "Count" else c.yKeys[0];
    var keyOf := SeriesKey(c);
    assert forall r :: keyOf(r) == target;
    KeptLabelsSame(rows, c.xKey.value, keyOf, target);
    DedupSame([], KeptLabels(rows, c.xKey.value, keyOf), target);
  }

  // Scatter charts.

  /** `{[xKey]: x, [yKey]: y}` when both cells of the row read as numbers. */
  function PointOf(xKey: string, yKey: string): Row -> Option<(real, real)> {
    (row: Row) =>
      var x := ParseNumeric(Cell(row, xKey));
      var y := ParseNumeric(Cell(row, yKey));
      if x.Some? && y.Some? then Some((x.value, y.value)) else None
  }

  /** The rows that give a point. */
  function Emits(f: Row -> Option<(real, real)>): Row -> bool {
    (row: Row) => f(row).Some?
  }

  /** The points the rows give, in row order. */
  function Emitted(rows: seq<Row>, f: Row -> Option<(real, real)>): (ps: seq<(real, real)>)
    ensures |ps| <= |rows|
    decreases |rows|
  {
    if |rows| == 0 then []
    else (if f(rows[0]).Some? then [f(rows[0]).value] else []) + Emitted(rows[1..], f)
  }

  /** `buildScatterData`. */
  function BuildScatter(rows: seq<Row>, c: ChartConfig): (b: Built)
    ensures !Given(c.xKey) || !Given(Nth(c.yKeys, 0)) ==>
      b.data == Nothing && b.warnings == [NoScatterKeys] && b.xDataKey == (if c.xKey.Some? then c.xKey.value else "")
    ensures Given(c.xKey) && Given(Nth(c.yKeys, 0)) ==>
      b.data.Points? && b.seriesKeys == [c.yKeys[0]] && b.xDataKey == c.xKey.value
    ensures Size(b.data) <= |rows|
    ensures b.warnings == [] <==> Size(b.data) > 0
    ensures |b.warnings| <= 1
  {
    var y := Nth(c.yKeys, 0);
    if !Given(c.xKey) || !Given(y) then
      Built(Nothing, [], if c.xKey.Some? then c.xKey.value else "", [NoScatterKeys])
    else
      var points := Emitted(rows, PointOf(c.xKey.value, y.value));
      Built(Points(points), [y.value], c.xKey.value, if |points| == 0 then [NoPoints] else [])
  }

  /** The points are the rows that give one, in row order. */
  lemma {:induction false} EmittedKept(rows: seq<Row>, f: Row -> Option<(real, real)>)
    ensures var ps := Emitted(rows, f);
      var kept := Filter(Emits(f), rows);
      && |ps| == |kept|
      && forall i :: 0 <= i < |ps| ==> f(kept[i]) == Some(ps[i])
    decreases |rows|
  {
    if |rows| > 0 {
      EmittedKept(rows[1..], f);
      var rest := Filter(Emits(f), rows[1..]);
      if f(rows[0]).Some? {
        assert Filter(Emits(f), rows) == [rows[0]] + rest;
      } else {
        assert Filter(Emits(f), rows) == rest;
      }
    }
  }

  /** A scatter chart plots exactly the rows whose two cells read as
      numbers, in row order, each at the numbers read. */
  lemma ScatterPoints(rows: seq<Row>, c: ChartConfig)
    requires Given(c.xKey) && Given(Nth(c.yKeys, 0))
    ensures var ps := BuildScatter(rows, c).data.points;
      var f := PointOf(c.xKey.value, c.yKeys[0]);
      var kept := Filter(Emits(f), rows);
      && |ps| == |kept|
      && forall i :: 0 <= i < |ps| ==>
           Some(ps[i].0) == ParseNumeric(Cell(kept[i], c.xKey.value))
           && Some(ps[i].1) == ParseNumeric(Cell(kept[i], c.yKeys[0]))
  {
    var f := PointOf(c.xKey.value, c.yKeys[0]);
    EmittedKept(rows, f);
  }

  // The chart shown.

  /** The chart data for the rows and configuration, by chart type. */
  function BuildChart(rows: seq<Row>, c: ChartConfig): (b: Built)
    ensures |rows| == 0 ==> b.data == Nothing && b.warnings == [NoRows]
    ensures b.warnings == [] <==> Size(b.data) > 0
    ensures |b.warnings| <= 1
  {
    if |rows| == 0 then Built(Nothing, [], if c.xKey.Some? then c.xKey.value else "name", [NoRows])
    else if c.kind == Pie then BuildPie(rows, c)
    else if c.kind == Scatter then BuildScatter(rows, c)
    else BuildCategorical(rows, c)
  }

  /** `canRender`: there is data and no warning. */
  predicate CanRender(b: Built) {
    Size(b.data) > 0 && |b.warnings| == 0
  }

  /** A chart is drawn exactly when there is data; otherwise exactly one
      warning explains why, so the placeholder text and the warning list
      under a drawn chart are never shown. */
  lemma RenderIffData(rows: seq<Row>, c: ChartConfig)
    ensures var b := BuildChart(rows, c);
      && (CanRender(b) <==> Size(b.data) > 0)
      && (!CanRender(b) <==> |b.warnings| == 1)
      && !(|b.warnings| > 0 && CanRender(b))
  {
  }

  /** A counted pie over some rows is always drawn. */
  lemma CountedPieDrawn(rows: seq<Row>, c: ChartConfig)
    requires |rows| > 0 && c.kind == Pie && Given(c.categoryKey) && PieCounts(c)
    ensures CanRender(BuildChart(rows, c))
  {
    PieCountsRows(rows, c);
  }
}
