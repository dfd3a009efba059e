/**
 * The spreadsheet visualiser page: the sheets on show, the selected sheet,
 * the selected columns and the chart configuration, and how they follow an
 * upload, a change of sheet and a change of columns.
 */
module ExcelPage {
  import opened Options
  import opened SeqUtil
  import opened ExcelTypes
  import opened ChartBuilder

  const DefaultConfig: ChartConfig := ChartConfig(Bar, None, [], None, None, None, Sum)

  /** The page state. */
  datatype Visualiser = Visualiser(sheets: seq<Sheet>, selectedName: Option<string>, columns: seq<string>, config: ChartConfig)

  /** `sheets.find((sheet) => sheet.name === selectedSheetName) ?? null`. */
  function FindSheet(sheets: seq<Sheet>, name: Option<string>): (r: Option<Sheet>)
    ensures r.Some? ==> r.value in sheets && Some(r.value.name) == name
    ensures r.None? <==> forall i :: 0 <= i < |sheets| ==> Some(sheets[i].name) != name
    decreases |sheets|
  {
    if |sheets| == 0 then None
    else if Some(sheets[0].name) == name then Some(sheets[0])
    else FindSheet(sheets[1..], name)
  }

  /** `handleSheetsParsed`: the parsed sheets replace the shown ones and the
      first of them is selected by name. */
  function SheetsParsed(v: Visualiser, parsed: seq<Sheet>): (r: Visualiser)
    ensures r.sheets == parsed
    ensures r.selectedName.Some? <==> |parsed| > 0
    ensures r.columns == v.columns && r.config == v.config
  {
    v.(sheets := parsed, selectedName := if |parsed| > 0 then Some(parsed[0].name) else None)
  }

  /** After an upload the first parsed sheet is the one selected, even when
      a later sheet has the same name. */
  lemma UploadSelectsFirst(v: Visualiser, parsed: seq<Sheet>)
    ensures var r := SheetsParsed(v, parsed);
      FindSheet(r.sheets, r.selectedName) == if |parsed| > 0 then Some(parsed[0]) else None
  {
    if |parsed| == 0 {
      var r := SheetsParsed(v, parsed);
      assert r.selectedName.None?;
    }
  }

  /** Whether `x` is one of `xs`. */
  predicate Includes(xs: seq<string>, x: string) {
    x in xs
  }

  /** The columns a sheet has. */
  function InHeaders(headers: seq<string>): string -> bool {
    (col: string) => Includes(headers, col)
  }

  /** The selected columns for a newly selected sheet: the previous ones the
      sheet has, or else its first six headers. */
  function ColumnsFor(prev: seq<string>, headers: seq<string>): (r: seq<string>)
    ensures forall x :: x in r ==> x in headers
    ensures |r| == 0 <==> |headers| == 0
  {
    var valid := Filter(InHeaders(headers), prev);
    if |prev| > 0 && |valid| > 0 then
      assert valid[0] in valid;
      valid
    else headers[..if |headers| < 6 then |headers| else 6]
  }

  /** The previous columns are kept, in their order, exactly when the new
      sheet has at least one of them. */
  lemma ColumnsForKeeps(prev: seq<string>, headers: seq<string>)
    ensures (exists x :: x in prev && x in headers) ==>
      ColumnsFor(prev, headers) == Filter(InHeaders(headers), prev)
    ensures (forall x :: x in prev ==> x !in headers) ==>
      ColumnsFor(prev, headers) == headers[..if |headers| < 6 then |headers| else 6]
  {
    var valid := Filter(InHeaders(headers), prev);
    if exists x :: x in prev && x in headers {
      var x :| x in prev && x in headers;
      assert x in valid;
    } else {
      FilterNone(InHeaders(headers), prev);
    }
  }

  /** Selecting the same sheet again leaves the columns as they are. */
  lemma ColumnsForTwice(prev: seq<string>, headers: seq<string>)
    ensures ColumnsFor(ColumnsFor(prev, headers), headers) == ColumnsFor(prev, headers)
  {
    var r := ColumnsFor(prev, headers);
    FilterAll(InHeaders(headers), r);
    if |headers| > 0 {
      assert r[0] in r;
    }
  }

  /** The chart configuration for a newly selected sheet: the type and the
      aggregate stay, the first header becomes the X and category column
      (but a pie has no X), the second the Y and value column, and the group
      is dropped. */
  function ConfigFor(prev: ChartConfig, headers: seq<string>): (r: ChartConfig)
    ensures r.kind == prev.kind && r.aggregate == prev.aggregate
    ensures r.groupKey.None?
    ensures r.xKey == if prev.kind == Pie then None else Nth(headers, 0)
    ensures r.categoryKey == Nth(headers, 0) && r.valueKey == Nth(headers, 1)
    ensures r.yKeys == if Given(Nth(headers, 1)) then [headers[1]] else []
  {
    var h1 := Nth(headers, 1);
    ChartConfig(prev.kind, if prev.kind == Pie then None else Nth(headers, 0),
      if Given(h1) then [h1.value] else [], Nth(headers, 0), h1, None, prev.aggregate)
  }

  /** The effect that runs when the selected sheet changes: without a sheet
      the columns are cleared and the default configuration restored. */
  function SheetChanged(v: Visualiser): (r: Visualiser)
    ensures r.sheets == v.sheets && r.selectedName == v.selectedName
    ensures FindSheet(v.sheets, v.selectedName).None? ==> r.columns == [] && r.config == DefaultConfig
  {
    match FindSheet(v.sheets, v.selectedName)
    case None => v.(columns := [], config := DefaultConfig)
    case Some(sheet) => v.(columns := ColumnsFor(v.columns, sheet.headers), config := ConfigFor(v.config, sheet.headers))
  }

  /** `handleColumnChange`: the chosen columns replace the selection, and a
      column role keeps its column only when the new columns include it
      (a missing column counting as the empty name). */
  function ColumnChange(v: Visualiser, columns: seq<string>): (r: Visualiser)
    ensures r.sheets == v.sheets && r.selectedName == v.selectedName && r.columns == columns
    ensures r.config.kind == v.config.kind && r.config.aggregate == v.config.aggregate
  {
    v.(columns := columns, config := ConfigForColumns(v.config, columns))
  }

  /** `columns.includes(key ?? '')`. */
  predicate Holds(columns: seq<string>, key: Option<string>) {
    Includes(columns, if key.Some? then key.value else "")
  }

  function ConfigForColumns(c: ChartConfig, columns: seq<string>): (r: ChartConfig)
    ensures r.kind == c.kind && r.aggregate == c.aggregate
    ensures c.kind == Pie ==> r.xKey == c.xKey && r.yKeys == c.yKeys && r.groupKey == c.groupKey
    ensures c.kind != Pie ==> r.categoryKey == c.categoryKey && r.valueKey == c.valueKey
  {
    if c.kind == Pie then
      c.(categoryKey := if Holds(columns, c.categoryKey) then c.categoryKey else Nth(columns, 0),
         valueKey := if Holds(columns, c.valueKey) then c.valueKey else Nth(columns, 1))
    else
      c.(xKey := if Holds(columns, c.xKey) then c.xKey else Nth(columns, 0),
         yKeys := if Holds(columns, Nth(c.yKeys, 0)) then c.yKeys
                  else if Given(Nth(columns, 1)) then [columns[1]] else [],
         groupKey := if Holds(columns, c.groupKey) then c.groupKey else None)
  }

  /** Each role that names a column names one of the chosen columns. */
  predicate Fits(c: ChartConfig, columns: seq<string>) {
    && (c.kind == Pie ==> (c.categoryKey.Some? ==> c.categoryKey.value in columns) && (c.valueKey.Some? ==> c.valueKey.value in columns))
    && (c.kind != Pie ==> (c.xKey.Some? ==> c.xKey.value in columns) && (forall y :: y in c.yKeys ==> y in columns) && (c.groupKey.Some? ==> c.groupKey.value in columns))
  }

  /** A role keeps its column exactly when the new columns include it; a
      role that loses its column falls back to the first, second or no
      column. After the change every role of the chart fits the columns. */
  lemma ColumnChangeFits(c: ChartConfig, columns: seq<string>)
    requires |c.yKeys| <= 1
    ensures var r := ConfigForColumns(c, columns);
      && (c.kind == Pie ==> (r.categoryKey == c.categoryKey <== Holds(columns, c.categoryKey)))
      && (c.kind == Pie && !Holds(columns, c.categoryKey) ==> r.categoryKey == Nth(columns, 0))
      && (c.kind == Pie ==> (r.valueKey == c.valueKey <== Holds(columns, c.valueKey)))
      && (c.kind == Pie && !Holds(columns, c.valueKey) ==> r.valueKey == Nth(columns, 1))
      && (c.kind != Pie ==> (r.xKey == c.xKey <== Holds(columns, c.xKey)))
      && (c.kind != Pie && !Holds(columns, c.xKey) ==> r.xKey == Nth(columns, 0))
      && (c.kind != Pie ==> (r.yKeys == c.yKeys <== Holds(columns, Nth(c.yKeys, 0))))
      && (c.kind != Pie ==> (r.groupKey == c.groupKey <== Holds(columns, c.groupKey)))
      && (c.kind != Pie && !Holds(columns, c.groupKey) ==> r.groupKey.None?)
      && Fits(r, columns)
  {
    var r := ConfigForColumns(c, columns);
    if c.kind != Pie && Holds(columns, Nth(c.yKeys, 0)) && |c.yKeys| == 1 {
      assert c.yKeys == [c.yKeys[0]];
    }
  }

  /** Applying the same column change twice is applying it once. */
  lemma ColumnChangeTwice(c: ChartConfig, columns: seq<string>)
    requires |c.yKeys| <= 1
    ensures ConfigForColumns(ConfigForColumns(c, columns), columns) == ConfigForColumns(c, columns)
  {
    ColumnChangeFits(c, columns);
    var r := ConfigForColumns(c, columns);
    if |columns| > 1 {
      assert columns[1] in columns;
    }
    if |columns| > 0 {
      assert columns[0] in columns;
    }
  }

  /** The configuration stays consistent through every page event. */
  lemma PageKeepsConsistent(v: Visualiser, columns: seq<string>, parsed: seq<Sheet>)
    requires Consistent(v.config)
    ensures Consistent(DefaultConfig)
    ensures Consistent(SheetChanged(v).config)
    ensures Consistent(ColumnChange(v, columns).config)
    ensures Consistent(SheetsParsed(v, parsed).config)
  {
    var r := ConfigForColumns(v.config, columns);
    if v.config.kind == Scatter && !Holds(columns, v.config.groupKey) {
      assert r.groupKey.None?;
    }
  }
}
