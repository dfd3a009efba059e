/**
 * The column picker of the spreadsheet visualiser: toggling one column,
 * selecting all or none, and the preview of the first rows and headers.
 */
module ColumnPicker {
  import opened Options
  import opened Numbers
  import opened Values
  import opened SeqUtil
  import opened ExcelTypes
  import DataTable

  /** Every item other than `column`. */
  function Other(column: string): string -> bool {
    (item: string) => item != column
  }

  /** `toggleColumn`: a selected column is removed wherever it occurs, any
      other is appended at the end. */
  function Toggle(current: seq<string>, column: string): (r: seq<string>)
    ensures column in r <==> column !in current
    ensures forall x :: x != column ==> (x in r <==> x in current)
    ensures column !in current ==> r == current + [column]
    ensures column in current ==> IsSubseq(r, current)
    ensures column in current ==> forall x :: x != column ==> multiset(r)[x] == multiset(current)[x]
  {
    if column in current then
      FilterSubseq(Other(column), current);
      forall x | x != column ensures multiset(Filter(Other(column), current))[x] == multiset(current)[x] {
        FilterCount(Other(column), current, x);
      }
      Filter(Other(column), current)
    else current + [column]
  }

  /** Toggling a column that is not selected twice restores the selection;
      toggling a selected one twice moves it to the end. */
  lemma ToggleTwice(current: seq<string>, column: string)
    ensures column !in current ==> Toggle(Toggle(current, column), column) == current
    ensures column in current ==> Toggle(Toggle(current, column), column) == Filter(Other(column), current) + [column]
  {
    if column !in current {
      FilterConcat(Other(column), current, [column]);
      FilterAll(Other(column), current);
      assert Filter(Other(column), [column]) == [];
    }
  }

  /** "Select all" chooses the sheet's headers, "Clear" none. */
  function SelectAll(sheet: Sheet): (r: seq<string>)
    ensures forall h :: h in r <==> h in sheet.headers
    ensures forall h :: h in sheet.headers ==> Toggle(r, h) == Filter(Other(h), r)
  {
    sheet.headers
  }

  const Clear: seq<string> := []

  /** The first five rows of the sheet. */
  function PreviewRows(sheet: Sheet): (r: seq<Row>)
    ensures |r| == if |sheet.rows| < 5 then |sheet.rows| else 5
    ensures r <= sheet.rows
  {
    sheet.rows[..if |sheet.rows| < 5 then |sheet.rows| else 5]
  }

  /** The first six headers of the sheet. */
  function PreviewHeaders(sheet: Sheet): (r: seq<string>)
    ensures |r| == if |sheet.headers| < 6 then |sheet.headers| else 6
    ensures r <= sheet.headers
  {
    sheet.headers[..if |sheet.headers| < 6 then |sheet.headers| else 6]
  }

  /** `Math.max(1, Math.min(6, headers.length))`: the width of the row that
      says there is no data. */
  function EmptyColSpan(sheet: Sheet): (n: nat)
    ensures n >= 1
    ensures |sheet.headers| > 0 ==> n == |PreviewHeaders(sheet)|
    ensures |sheet.headers| == 0 ==> n == 1
  {
    var shown := if |sheet.headers| < 6 then |sheet.headers| else 6;
    if shown < 1 then 1 else shown
  }

  /** What a preview cell shows. */
  datatype Shown = Placeholder | Text(text: string)

  /** `renderCell`: blank cells show the placeholder, numbers their
      `toLocaleString` (a parameter), anything else `String(v)`. */
  function RenderCell(x: Option<Value>, numberText: Value -> string): (r: Shown)
    ensures r.Placeholder? <==> IsBlank(x)
    ensures !IsBlank(x) && IsNumberType(x) ==> r == Text(numberText(x.value))
  {
    if IsBlank(x) then Placeholder
    else
      var v := x.value;
      if v.Num? || v.NonFinite? then Text(numberText(v)) else Text(ToText(v))
  }

  /** The preview and the data table show the same text for a cell that is
      not a number, and where the preview shows its placeholder the table
      shows nothing. */
  lemma CellViewsAgree(x: Option<Value>, numberText: Value -> string, locale: Decimal -> string)
    requires !IsNumberType(x)
    ensures RenderCell(x, numberText).Placeholder? ==> DataTable.FormatCell(x, locale) == ""
    ensures RenderCell(x, numberText).Text? ==> RenderCell(x, numberText).text == DataTable.FormatCell(x, locale)
  {
  }
}
