/**
 * The chart builder's edits to the chart configuration: changing the chart
 * type or the aggregate, and choosing one column for one role.
 */
module ChartBuilder {
  import opened Options
  import opened ExcelTypes

  /** `selected ? selected : null`: the empty choice of a select is no
      column. */
  function Chosen(value: string): (r: Option<string>)
    ensures r.Some? <==> value != ""
    ensures r.Some? ==> r.value == value
  {
    if value == "" then None else Some(value)
  }

  /** `ensureSingleYKey`: the Y keys for a newly chosen Y column. */
  function EnsureSingleYKey(next: Option<string>): (ys: seq<string>)
    ensures |ys| <= 1
    ensures ys == [] <==> !Given(next)
    ensures Given(next) ==> ys[0] == next.value
  {
    if !Given(next) then [] else [next.value]
  }

  /** `handleTypeChange`: a pie takes its category from the old category or
      X column and its value from the old value column; the other types take
      their X from the old X or category column and keep their Y columns or
      take the old value column. The available columns fill in what is
      missing. */
  function TypeChange(c: ChartConfig, kind: ChartType, cols: seq<string>): (r: ChartConfig)
    ensures r.kind == kind
    ensures kind == Pie ==> r.xKey.None? && r.yKeys == [] && r.groupKey.None?
    ensures kind == Pie ==> r.categoryKey == c.categoryKey.OrElse(c.xKey).OrElse(Nth(cols, 0))
    ensures kind == Pie ==> r.valueKey == c.valueKey.OrElse(Nth(cols, 1))
    ensures kind != Pie ==> r.categoryKey.None? && r.valueKey.None?
    ensures kind != Pie ==> r.xKey == c.xKey.OrElse(c.categoryKey).OrElse(Nth(cols, 0))
    ensures kind != Pie && c.yKeys != [] ==> r.yKeys == c.yKeys
    ensures kind != Pie && c.yKeys == [] ==> r.yKeys == EnsureSingleYKey(c.valueKey.OrElse(Nth(cols, 1)))
    ensures kind == Scatter ==> r.aggregate == Sum && r.groupKey.None?
    ensures kind != Scatter ==> r.aggregate == c.aggregate
    ensures kind != Scatter && kind != Pie ==> r.groupKey == c.groupKey
  {
    if kind == Pie then
      assert c.aggregate == Count || c.aggregate == Sum;
      c.(kind := kind,
         aggregate := if c.aggregate == Count then Count else Sum,
         categoryKey := c.categoryKey.OrElse(c.xKey).OrElse(Nth(cols, 0)),
         valueKey := c.valueKey.OrElse(Nth(cols, 1)),
         xKey := None,
         yKeys := [],
         groupKey := None)
    else
      c.(kind := kind,
         aggregate := if kind == Scatter then Sum else c.aggregate,
         xKey := c.xKey.OrElse(c.categoryKey).OrElse(Nth(cols, 0)),
         yKeys := if |c.yKeys| > 0 then c.yKeys else EnsureSingleYKey(c.valueKey.OrElse(Nth(cols, 1))),
         categoryKey := None,
         valueKey := None,
         groupKey := if kind == Scatter then None else c.groupKey)
  }

  /** `handleAggregateChange`: counting drops the Y and value columns. */
  function AggregateChange(c: ChartConfig, a: Aggregate): (r: ChartConfig)
    ensures r.aggregate == a
    ensures a == Count ==> r.yKeys == [] && r.valueKey.None?
    ensures a == Sum ==> r == c.(aggregate := Sum)
  {
    c.(aggregate := a,
       yKeys := if a == Count then [] else c.yKeys,
       valueKey := if a == Count then None else c.valueKey)
  }

  /** The edits the builder offers. */
  datatype Edit =
    | SetType(kind: ChartType)
    | SetAggregate(aggregate: Aggregate)
    | SetX(key: Option<string>)
    | SetY(key: Option<string>)
    | SetGroup(key: Option<string>)
    | SetCategory(key: Option<string>)
    | SetValue(key: Option<string>)

  /** Whether the builder shows the control for an edit: the aggregate is
      fixed for scatter plots, the X, Y and group selects belong to the
      non-pie charts, the Y select to summing only, the group select not to
      scatter plots, and the category and value selects to pies, the value
      select to summing only. */
  predicate Offered(c: ChartConfig, e: Edit) {
    match e
    case SetType(_) => true
    case SetAggregate(_) => c.kind != Scatter
    case SetX(_) => c.kind != Pie
    case SetY(_) => c.kind != Pie && c.aggregate == Sum
    case SetGroup(_) => c.kind != Pie && c.kind != Scatter
    case SetCategory(_) => c.kind == Pie
    case SetValue(_) => c.kind == Pie && c.aggregate == Sum
  }

  /** The configuration after an edit; each column setter changes its own
      field and nothing else. */
  function Apply(c: ChartConfig, e: Edit, cols: seq<string>): (r: ChartConfig)
    ensures e.SetX? ==> r.xKey == e.key && r.(xKey := c.xKey) == c
    ensures e.SetY? ==> |r.yKeys| <= 1 && Nth(r.yKeys, 0) == (if Given(e.key) then e.key else None) && r.(yKeys := c.yKeys) == c
    ensures e.SetGroup? ==> r.groupKey == e.key && r.(groupKey := c.groupKey) == c
    ensures e.SetCategory? ==> r.categoryKey == e.key && r.(categoryKey := c.categoryKey) == c
    ensures e.SetValue? ==> r.valueKey == e.key && r.(valueKey := c.valueKey) == c
  {
    match e
    case SetType(kind) => TypeChange(c, kind, cols)
    case SetAggregate(a) => AggregateChange(c, a)
    case SetX(k) => c.(xKey := k)
    case SetY(k) => c.(yKeys := EnsureSingleYKey(k))
    case SetGroup(k) => c.(groupKey := k)
    case SetCategory(k) => c.(categoryKey := k)
    case SetValue(k) => c.(valueKey := k)
  }

  /** What every configuration the page holds satisfies: at most one Y
      column, a scatter plot sums and has no group, a pie has no X. */
  predicate Consistent(c: ChartConfig) {
    && |c.yKeys| <= 1
    && (c.kind == Scatter ==> c.aggregate == Sum && c.groupKey.None?)
    && (c.kind == Pie ==> c.xKey.None?)
  }

  /** Every edit the builder offers keeps a configuration consistent. */
  lemma EditKeepsConsistent(c: ChartConfig, e: Edit, cols: seq<string>)
    requires Consistent(c) && Offered(c, e)
    ensures Consistent(Apply(c, e, cols))
  {
    match e
    case SetType(kind) =>
      assert |TypeChange(c, kind, cols).yKeys| <= 1;
    case _ =>
  }

  /** Choosing a type twice is choosing it once, unless the value column is
      the empty name. */
  lemma TypeChangeTwice(c: ChartConfig, kind: ChartType, cols: seq<string>)
    requires c.valueKey != Some("")
    ensures TypeChange(TypeChange(c, kind, cols), kind, cols) == TypeChange(c, kind, cols)
  {
    var r := TypeChange(c, kind, cols);
    if kind != Pie && r.yKeys == [] {
      assert c.yKeys == [];
      assert !Given(c.valueKey.OrElse(Nth(cols, 1)));
      assert r.valueKey.OrElse(Nth(cols, 1)) == c.valueKey.OrElse(Nth(cols, 1));
    }
  }

  /** Switching a chart without a category column to a pie and back keeps
      its X column: the pie takes it as its category and hands it back. */
  lemma PieAndBack(c: ChartConfig, kind: ChartType, cols: seq<string>)
    requires c.kind != Pie && c.categoryKey.None? && kind != Pie
    ensures TypeChange(TypeChange(c, Pie, cols), kind, cols).xKey == c.xKey.OrElse(Nth(cols, 0))
  {
    var p := TypeChange(c, Pie, cols);
    assert p.categoryKey == c.xKey.OrElse(Nth(cols, 0));
  }
}
