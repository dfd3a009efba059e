/**
 * The data table of the spreadsheet visualiser: the columns it shows, the
 * search over the rows, the page kept in range, and the text of a cell.
 */
module DataTable {
  import opened Options
  import opened Numbers
  import opened Values
  import opened JsText
  import opened SeqUtil
  import opened Export
  import opened ExcelTypes

  /** `formatCellValue`. `toLocaleString` of a finite number depends on the
      browser's locale and is a parameter. */
  function FormatCell(x: Option<Value>, locale: Decimal -> string): (r: string)
    ensures IsBlank(x) ==> r == ""
    ensures x.Some? && x.value.NonFinite? ==> r == ""
    ensures x.Some? && x.value.Num? ==> r == locale(x.value.n)
    ensures !IsBlank(x) && x.value.Str? ==> r == x.value.s && r != ""
    ensures !IsBlank(x) && !x.value.Num? && !x.value.NonFinite? ==> r == ToText(x.value)
  {
    if IsBlank(x) then ""
    else
      var v := x.value;
      match v
      case Num(d) => locale(d)
      case NonFinite(_) => ""
      case _ => ToText(v)
  }

  /** `effectiveColumns`: the chosen columns, or else the keys of the first
      row. */
  function EffectiveColumns(columns: seq<string>, data: seq<Row>): (r: seq<string>)
    ensures |columns| > 0 ==> r == columns
    ensures |columns| == 0 && |data| > 0 ==> r == KeysOf(data[0])
    ensures |columns| == 0 && |data| == 0 ==> r == []
  {
    if |columns| > 0 then columns
    else if |data| > 0 then KeysOf(data[0])
    else []
  }

  /** A cell matches when it is present, not `null`, and its lower-cased
      text contains the search. */
  predicate CellMatches(x: Option<Value>, search: string) {
    x.Some? && x.value != Null && Contains(Lower(ToText(x.value)), search)
  }

  /** A row matches when one of the columns' cells does. */
  predicate Matches(row: Row, cols: seq<string>, search: string) {
    exists i :: 0 <= i < |cols| && CellMatches(Cell(row, cols[i]), search)
  }

  function Searching(cols: seq<string>, search: string): Row -> bool {
    (row: Row) => Matches(row, cols, search)
  }

  /** `filteredData`: a blank search keeps every row; otherwise the rows
      matching the trimmed, lower-cased search, in order. */
  function FilteredData(data: seq<Row>, cols: seq<string>, filter: string): (r: seq<Row>)
    ensures Trim(filter) == "" ==> r == data
    ensures |r| <= |data|
    ensures Trim(filter) != "" ==> forall row :: row in r <==> row in data && Matches(row, cols, Lower(Trim(filter)))
    ensures IsSubseq(r, data)
    ensures Trim(filter) != "" ==> forall row ::
      multiset(r)[row] == if Matches(row, cols, Lower(Trim(filter))) then multiset(data)[row] else 0
  {
    var t := Trim(filter);
    if t == "" then
      SubseqSelf(data);
      data
    else
      var keep := Searching(cols, Lower(t));
      FilterSubseq(keep, data);
      forall row ensures multiset(Filter(keep, data))[row] == if keep(row) then multiset(data)[row] else 0 {
        FilterCount(keep, data, row);
      }
      Filter(keep, data)
  }

  /** Searching the result again for the same text changes nothing. */
  lemma FilteredTwice(data: seq<Row>, cols: seq<string>, filter: string)
    ensures FilteredData(FilteredData(data, cols, filter), cols, filter) == FilteredData(data, cols, filter)
  {
    var t := Trim(filter);
    if t != "" {
      var r := FilteredData(data, cols, filter);
      FilterAll(Searching(cols, Lower(t)), r);
    }
  }

  /** The page state. */
  datatype TableState = TableState(pageIndex: nat, pageSize: nat, globalFilter: string)

  /** `Math.max(0, Math.ceil(n / size) - 1)`: the index of the last page. */
  function MaxPage(n: nat, size: nat): nat
    requires size > 0
  {
    var pages := (n + size - 1) / size;
    if pages == 0 then 0 else pages - 1
  }

  /** The last page holds the last row: every row lies on a page up to it,
      and it starts before the end of the rows. */
  lemma MaxPageCovers(n: nat, size: nat)
    requires size > 0
    ensures n == 0 ==> MaxPage(n, size) == 0
    ensures n > 0 ==> MaxPage(n, size) * size < n <= (MaxPage(n, size) + 1) * size
  {
    var q := (n + size - 1) / size;
    var rem := (n + size - 1) % size;
    assert q * size + rem == n + size - 1;
    assert q >= 0;
    if n > 0 {
      assert q >= 1;
      assert (q - 1) * size == q * size - size;
    }
  }

  /** The pagination effect: a page past the last one becomes the last. */
  function Clamp(s: TableState, n: nat): (r: TableState)
    requires s.pageSize > 0
    ensures r.pageSize == s.pageSize && r.globalFilter == s.globalFilter
    ensures r.pageIndex <= MaxPage(n, s.pageSize) && r.pageIndex <= s.pageIndex
    ensures s.pageIndex <= MaxPage(n, s.pageSize) ==> r == s
  {
    var maxPage := MaxPage(n, s.pageSize);
    if s.pageIndex > maxPage then s.(pageIndex := maxPage) else s
  }

  /** Clamping twice is clamping once, and with rows to show the page
      clamped to holds at least one of them. */
  lemma ClampShowsRows(s: TableState, n: nat)
    requires s.pageSize > 0
    ensures Clamp(Clamp(s, n), n) == Clamp(s, n)
    ensures n > 0 ==> Clamp(s, n).pageIndex * s.pageSize < n
  {
    MaxPageCovers(n, s.pageSize);
    var p := Clamp(s, n).pageIndex;
    var m := MaxPage(n, s.pageSize);
    if n > 0 {
      assert p * s.pageSize <= m * s.pageSize;
    }
  }

  /** Typing in the search box shows the first page. */
  function SearchEdit(s: TableState, text: string): (r: TableState)
    ensures r.globalFilter == text && r.pageIndex == 0 && r.pageSize == s.pageSize
  {
    s.(globalFilter := text, pageIndex := 0)
  }

  /** The first page is never clamped away. */
  lemma SearchStaysFirst(s: TableState, text: string, n: nat)
    requires s.pageSize > 0
    ensures Clamp(SearchEdit(s, text), n) == SearchEdit(s, text)
  {
  }

  /** `handleExportCsv`: the rows to export, nothing when there are none. */
  function ExportRows(filtered: seq<Row>): (r: Option<seq<Row>>)
    ensures r.None? <==> |filtered| == 0
    ensures r.Some? ==> r.value == filtered
  {
    if |filtered| == 0 then None else Some(filtered)
  }
}
