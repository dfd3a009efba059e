/**
 * The data the spreadsheet visualiser works on: parsed worksheets, their
 * rows as plain objects, and the chart configuration.
 */
module ExcelTypes {
  import opened Options
  import opened Values

  /** A worksheet row: `Record<string, any>`, keys in enumeration order. */
  type Row = seq<(string, Value)>

  /** `row[key]`. */
  function Cell(row: Row, key: string): Option<Value> {
    Lookup(row, key)
  }

  datatype Sheet = Sheet(name: string, rows: seq<Row>, headers: seq<string>)

  datatype ChartType = Bar | Line | Area | Pie | Scatter

  datatype Aggregate = Count | Sum

  /** `ChartConfig`; the chart type is the field `type` in the source. */
  datatype ChartConfig = ChartConfig(
    kind: ChartType,
    xKey: Option<string>,
    yKeys: seq<string>,
    categoryKey: Option<string>,
    valueKey: Option<string>,
    groupKey: Option<string>,
    aggregate: Aggregate)

  /** A column choice that is truthy: present and not the empty string. */
  predicate Given(k: Option<string>) {
    k.Some? && k.value != ""
  }
}
