/**
 * The workbook upload (components/excel/FileUploader.tsx): which files are
 * accepted, how the headers of each worksheet are derived, and what an
 * upload ends in. Reading the file and parsing the workbook belong to the
 * browser and the XLSX library; what they deliver is an input here.
 */
module FileUploader {
  import opened Options
  import opened Numbers
  import opened JsText
  import opened Values
  import opened Export
  import opened ExcelTypes
  import ExcelPage

  // Which files are accepted.

  /** A chosen file: its name and the MIME type the browser reports. */
  datatype FileInfo = FileInfo(name: string, mimeType: string)

  /** `application/vnd.openxmlformats-officedocument.spreadsheetml.sheet`
      and `application/vnd.ms-excel`, written in pieces. */
  const SheetType: string := "application/vnd" + ".openxmlformats" + "-officedocument" + ".spreadsheetml" + ".sheet"
  const ExcelType: string := "application/vnd" + ".ms-excel"

  /** `acceptedTypes`: two MIME types and two extensions. */
  const AcceptedTypes: seq<string> := [SheetType, ExcelType, ".xlsx", ".xls"]

  /** `s.replace('.', '')`: the first dot removed. */
  function DropFirstDot(s: string): (r: string)
    ensures '.' !in s ==> r == s
  {
    if |s| == 0 then "" else if s[0] == '.' then s[1..] else [s[0]] + DropFirstDot(s[1..])
  }

  /** Whether the browser's type is one of the accepted ones. */
  predicate Listed(mimeType: string) {
    mimeType in AcceptedTypes
  }

  /** `isAcceptedFile` as written: a listed MIME type, or a lower-cased
      name ending in one of the listed types with its first dot removed. */
  predicate AcceptedAsWritten(f: FileInfo) {
    Listed(f.mimeType)
    || exists i :: 0 <= i < |AcceptedTypes| && EndsWith(Lower(f.name), DropFirstDot(AcceptedTypes[i]))
  }

  lemma DropDotOf(a: string, b: string)
    requires '.' !in a
    ensures DropFirstDot(a + "." + b) == a + b
    decreases |a|
  {
    if |a| > 0 {
      DropDotOf(a[1..], b);
      assert (a + "." + b)[1..] == a[1..] + "." + b;
      assert a == [a[0]] + a[1..];
    }
  }

  /** Removing the first dot keeps every other character. */
  lemma {:induction false} DropKeeps(s: string, c: char)
    requires c != '.' && c in s
    ensures c in DropFirstDot(s)
  {
    if s[0] != '.' && s[0] != c {
      DropKeeps(s[1..], c);
    }
  }

  /** The two MIME types hold a slash; the two extensions lose their dot. */
  lemma TypeShapes()
    ensures '/' in DropFirstDot(SheetType) && '/' in DropFirstDot(ExcelType)
    ensures DropFirstDot(".xlsx") == "xlsx" && DropFirstDot(".xls") == "xls"
  {
    assert SheetType[11] == '/';
    assert ExcelType[11] == '/';
    DropKeeps(SheetType, '/');
    DropKeeps(ExcelType, '/');
  }

  /** The MIME types, once their first dot is dropped, still hold a slash,
      so no file name ends in them. */
  lemma AsWrittenOnlySuffixes(f: FileInfo)
    requires '/' !in f.name
    ensures AcceptedAsWritten(f) ==>
      Listed(f.mimeType) || EndsWith(Lower(f.name), "xlsx") || EndsWith(Lower(f.name), "xls")
  {
    var n := Lower(f.name);
    assert '/' !in n by {
      forall i | 0 <= i < |n| ensures n[i] != '/' {
        assert n[i] == LowerChar(f.name[i]);
      }
    }
    if !Listed(f.mimeType) && AcceptedAsWritten(f) {
      var i :| 0 <= i < |AcceptedTypes| && EndsWith(n, DropFirstDot(AcceptedTypes[i]));
      TypeShapes();
      if i < 2 {
        assert false;
      }
    }
  }

  /** For a name without a slash (as every file name is) the test as
      written accepts a listed MIME type, or a name ending in `xlsx` or
      `xls`, with or without a dot in front. */
  lemma AsWrittenSuffixes(f: FileInfo)
    requires '/' !in f.name
    ensures AcceptedAsWritten(f) <==>
      Listed(f.mimeType) || EndsWith(Lower(f.name), "xlsx") || EndsWith(Lower(f.name), "xls")
  {
    AsWrittenOnlySuffixes(f);
    var n := Lower(f.name);
    TypeShapes();
    if EndsWith(n, "xlsx") {
      assert EndsWith(n, DropFirstDot(AcceptedTypes[2]));
    }
    if EndsWith(n, "xls") {
      assert EndsWith(n, DropFirstDot(AcceptedTypes[3]));
    }
  }

  /** A name written as the text after its last dot, `None` when it has no
      dot. */
  function Extension(s: string): (e: Option<string>)
    ensures e.Some? ==> '.' !in e.value
  {
    if |s| == 0 then None
    else if s[|s| - 1] == '.' then Some("")
    else
      var init := Extension(s[..|s| - 1]);
      if init.None? then None else Some(init.value + [s[|s| - 1]])
  }

  lemma {:induction false} ExtensionOf(a: string, e: string)
    requires '.' !in e
    ensures Extension(a + "." + e) == Some(e)
    decreases |e|
  {
    var s := a + "." + e;
    if |e| > 0 {
      ExtensionOf(a, e[..|e| - 1]);
      assert s[..|s| - 1] == a + "." + e[..|e| - 1];
      assert e == e[..|e| - 1] + [e[|e| - 1]];
    }
  }

  lemma {:induction false} ExtensionEnds(s: string)
    requires Extension(s).Some?
    ensures EndsWith(s, "." + Extension(s).value)
    decreases |s|
  {
    if s[|s| - 1] != '.' {
      var init := s[..|s| - 1];
      ExtensionEnds(init);
      assert s == init + [s[|s| - 1]];
    }
  }

  /** A name ends in a dot and a dot-free extension exactly when that is
      its extension. */
  lemma EndsWithExtension(s: string, e: string)
    requires '.' !in e
    ensures EndsWith(s, "." + e) <==> Extension(s) == Some(e)
  {
    if EndsWith(s, "." + e) {
      var a := s[..|s| - |e| - 1];
      assert s == a + "." + e;
      ExtensionOf(a, e);
    }
    if Extension(s) == Some(e) {
      ExtensionEnds(s);
    }
  }

  /** The evidently intended test: a listed MIME type, or the extension
      `.xlsx` or `.xls` whatever its case. */
  predicate Accepted(f: FileInfo) {
    Listed(f.mimeType) || EndsWith(Lower(f.name), ".xlsx") || EndsWith(Lower(f.name), ".xls")
  }

  /** The intended test accepts a file exactly when its type is listed or
      its lower-cased extension is `xlsx` or `xls`. */
  lemma AcceptedByExtension(f: FileInfo)
    ensures Accepted(f) <==>
      Listed(f.mimeType) || Extension(Lower(f.name)) == Some("xlsx") || Extension(Lower(f.name)) == Some("xls")
  {
    var n := Lower(f.name);
    assert ".xlsx" == "." + "xlsx";
    assert ".xls" == "." + "xls";
    EndsWithExtension(n, "xlsx");
    EndsWithExtension(n, "xls");
  }

  /** A text ending in `c` and then `t` ends in `t`. */
  lemma EndsWithTail(n: string, c: char, t: string)
    requires EndsWith(n, [c] + t)
    ensures EndsWith(n, t)
  {
    assert n[|n| - |t|..] == n[|n| - |t| - 1..][1..];
  }

  /** Everything the intended test accepts the test as written accepts
      too. */
  lemma AcceptedAsWrittenToo(f: FileInfo)
    requires '/' !in f.name && Accepted(f)
    ensures AcceptedAsWritten(f)
  {
    if !Listed(f.mimeType) {
      if EndsWith(Lower(f.name), ".xlsx") {
        WrittenByExtension(f, ".xlsx", 2);
      } else {
        WrittenByExtension(f, ".xls", 3);
      }
    }
  }

  /** A name ending in an accepted extension, dot included, ends in that
      extension with its dot dropped. */
  lemma WrittenByExtension(f: FileInfo, e: string, i: nat)
    requires i < |AcceptedTypes| && AcceptedTypes[i] == e && |e| > 0 && e[0] == '.'
    requires EndsWith(Lower(f.name), e)
    ensures AcceptedAsWritten(f)
  {
    var n := Lower(f.name);
    assert e == [e[0]] + e[1..];
    EndsWithTail(n, '.', e[1..]);
    assert DropFirstDot(e) == e[1..];
    WrittenBySuffix(f, i);
  }

  /** A name ending in one accepted type with its dot dropped passes the
      test as written. */
  lemma WrittenBySuffix(f: FileInfo, i: nat)
    requires i < |AcceptedTypes| && EndsWith(Lower(f.name), DropFirstDot(AcceptedTypes[i]))
    ensures AcceptedAsWritten(f)
  {
  }

  /** A text without capitals is its own lower case. */
  lemma LowerSame(s: string)
    requires forall i :: 0 <= i < |s| ==> !IsUpper(s[i])
    ensures Lower(s) == s
  {
  }

  /** The test as written also takes a name whose extension is not an Excel
      one, or that has none: a file of no known type named `notesxls`. */
  lemma AcceptsWithoutDot()
    ensures var f := FileInfo("notesxls", "");
      AcceptedAsWritten(f) && !Accepted(f)
  {
    var name := "notesxls";
    LowerSame(name);
    NotListedEmpty();
    var n := Lower(name);
    assert EndsWith(n, "xls") by { assert n[5..] == "xls"; }
    assert !EndsWith(n, ".xls") by { assert n[4] == 's'; }
    assert !EndsWith(n, ".xlsx") by { assert n[3] == 'e'; }
    TakesXls(FileInfo(name, ""));
  }

  /** A name ending in `xls` passes the test as written. */
  lemma TakesXls(f: FileInfo)
    requires EndsWith(Lower(f.name), "xls")
    ensures AcceptedAsWritten(f)
  {
    TypeShapes();
    assert EndsWith(Lower(f.name), DropFirstDot(AcceptedTypes[3]));
  }

  lemma NotListedEmpty()
    ensures !Listed("")
  {
    assert |SheetType| > 0 && |ExcelType| > 0;
  }

  // Headers.

  /** The header of column `index` from the first row's cell: a blank cell
      is named by its 1-based position. */
  function HeaderOf(cell: Option<Value>, index: nat): (h: string)
    ensures IsBlank(cell) ==> h == "Column " + NatToString(index + 1)
    ensures !IsBlank(cell) ==> h == ToText(cell.value)
  {
    if IsBlank(cell) then "Column " + NatToString(index + 1) else ToText(cell.value)
  }

  /** The headers of a worksheet from its first non-blank row (as arrays of
      cells, `None` for an empty cell) and its rows as objects. */
  function Headers(firstRow: Option<seq<Option<Value>>>, rows: seq<Row>): (r: seq<string>)
    ensures firstRow.Some? && |firstRow.value| > 0 ==>
      |r| == |firstRow.value| && forall i :: 0 <= i < |r| ==> r[i] == HeaderOf(firstRow.value[i], i)
    ensures !(firstRow.Some? && |firstRow.value| > 0) && |rows| > 0 ==> r == KeysOf(rows[0])
    ensures !(firstRow.Some? && |firstRow.value| > 0) && |rows| == 0 ==> r == []
  {
    if firstRow.Some? && |firstRow.value| > 0 then
      var cells := firstRow.value;
      seq(|cells|, i requires 0 <= i < |cells| => HeaderOf(cells[i], i))
    else if |rows| > 0 then KeysOf(rows[0])
    else []
  }

  /** A value a worksheet cell can hold. */
  predicate Scalar(x: Option<Value>) {
    x.None? || (!x.value.Arr? && !x.value.Obj?)
  }

  /** Headers taken from a first row name every column with some text, and
      the placeholders of two blank cells differ. */
  lemma HeadersNamed(cells: seq<Option<Value>>, rows: seq<Row>)
    requires |cells| > 0
    requires forall i :: 0 <= i < |cells| ==> Scalar(cells[i])
    ensures var r := Headers(Some(cells), rows);
      && (forall i :: 0 <= i < |r| ==> r[i] != "")
      && (forall i, j :: 0 <= i < j < |r| && IsBlank(cells[i]) && IsBlank(cells[j]) ==> r[i] != r[j])
  {
    var r := Headers(Some(cells), rows);
    forall i, j | 0 <= i < j < |r| && IsBlank(cells[i]) && IsBlank(cells[j])
      ensures r[i] != r[j]
    {
      var a, b := NatToString(i + 1), NatToString(j + 1);
      if r[i] == r[j] {
        assert a == r[i][7..] && b == r[j][7..];
        NatToStringInjective(i + 1, j + 1);
      }
    }
  }

  /** A newly selected chart (not a pie) on a sheet whose first row has two
      or more cells plots the second column against the first. */
  lemma FirstColumnsCharted(prev: ChartConfig, cells: seq<Option<Value>>, rows: seq<Row>)
    requires |cells| >= 2 && prev.kind != Pie
    requires forall i :: 0 <= i < |cells| ==> Scalar(cells[i])
    ensures var headers := Headers(Some(cells), rows);
      var c := ExcelPage.ConfigFor(prev, headers);
      c.xKey == Some(headers[0]) && c.yKeys == [headers[1]]
  {
    HeadersNamed(cells, rows);
  }

  // The upload.

  /** A worksheet as the XLSX library delivers it. */
  datatype RawSheet = RawSheet(name: string, rows: seq<Row>, firstRow: Option<seq<Option<Value>>>)

  /** `createParsedSheets`. */
  function ParseSheets(book: seq<RawSheet>): (r: seq<Sheet>)
    ensures |r| == |book|
    ensures forall i :: 0 <= i < |book| ==> r[i] == Sheet(book[i].name, book[i].rows, Headers(book[i].firstRow, book[i].rows))
  {
    seq(|book|, i requires 0 <= i < |book| => Sheet(book[i].name, book[i].rows, Headers(book[i].firstRow, book[i].rows)))
  }

  /** What reading the file delivers: nothing, a file the library cannot
      parse, or its worksheets. */
  datatype ReadResult = Unreadable | Corrupt | Workbook(sheets: seq<RawSheet>)

  /** How an upload ends: nothing chosen, an error message, or the parsed
      sheets handed to the page. */
  datatype Upload = Ignored | Failed(message: string) | Loaded(sheets: seq<Sheet>)

  const InvalidFile: string := "Please upload a valid Excel file (.xlsx or .xls)."
  const UnreadableFile: string := "Unable to read the selected file."
  const NoWorksheets: string := "No worksheets were detected in the uploaded file."
  const CorruptFile: string := "Failed to parse the Excel file. Please verify the file is not corrupted."

  /** `handleFiles` with the reader's result for a file as a parameter:
      only the first file counts, and it passes the type test as written. */
  function HandleFiles(files: seq<FileInfo>, read: FileInfo -> ReadResult): (u: Upload)
    ensures u.Ignored? <==> |files| == 0
    ensures |files| > 0 && !AcceptedAsWritten(files[0]) ==> u == Failed(InvalidFile)
    ensures u.Loaded? ==> |u.sheets| > 0
  {
    if |files| == 0 then Ignored
    else
      var file := files[0];
      if !AcceptedAsWritten(file) then Failed(InvalidFile)
      else
        match read(file)
        case Unreadable => Failed(UnreadableFile)
        case Corrupt => Failed(CorruptFile)
        case Workbook(book) =>
          var sheets := ParseSheets(book);
          if |sheets| == 0 then Failed(NoWorksheets) else Loaded(sheets)
  }

  /** The message under the drop zone after an upload: kept when nothing
      was chosen, cleared when sheets were loaded. */
  function ErrorAfter(prev: Option<string>, u: Upload): (e: Option<string>)
    ensures u.Ignored? ==> e == prev
    ensures e.None? <==> (u.Loaded? || (u.Ignored? && prev.None?))
  {
    match u
    case Ignored => prev
    case Failed(message) => Some(message)
    case Loaded(_) => None
  }

  /** An upload loads sheets exactly when the first file is accepted and
      parses into at least one worksheet; each failure has its own message.
      Loaded sheets come in workbook order, and the page then shows the
      first. */
  lemma UploadOutcomes(files: seq<FileInfo>, read: FileInfo -> ReadResult, v: ExcelPage.Visualiser)
    ensures var u := HandleFiles(files, read);
      && (u.Loaded? <==> |files| > 0 && AcceptedAsWritten(files[0]) && read(files[0]).Workbook? && |read(files[0]).sheets| > 0)
      && (u == Failed(UnreadableFile) <==> |files| > 0 && AcceptedAsWritten(files[0]) && read(files[0]).Unreadable?)
      && (u == Failed(CorruptFile) <==> |files| > 0 && AcceptedAsWritten(files[0]) && read(files[0]).Corrupt?)
      && (u == Failed(NoWorksheets) <==> |files| > 0 && AcceptedAsWritten(files[0]) && read(files[0]) == Workbook([]))
      && (u.Loaded? ==> forall i :: 0 <= i < |u.sheets| ==> u.sheets[i].name == read(files[0]).sheets[i].name)
      && (u.Loaded? ==> ExcelPage.FindSheet(u.sheets, ExcelPage.SheetsParsed(v, u.sheets).selectedName) == Some(u.sheets[0]))
  {
    var u := HandleFiles(files, read);
    if u.Loaded? {
      ExcelPage.UploadSelectsFirst(v, u.sheets);
    }
  }

  /** The upload hands a file named `notesxls` without a type to the
      reader instead of reporting it as invalid: a workbook read from it is
      loaded. */
  lemma UploadReadsNotesXls(read: FileInfo -> ReadResult)
    ensures var f := FileInfo("notesxls", "");
      read(f).Workbook? && |read(f).sheets| > 0 ==> HandleFiles([f], read).Loaded?
  {
    var f := FileInfo("notesxls", "");
    AcceptsWithoutDot();
    LoadsAccepted(f, read);
  }

  lemma LoadsAccepted(f: FileInfo, read: FileInfo -> ReadResult)
    requires AcceptedAsWritten(f)
    ensures read(f).Workbook? && |read(f).sheets| > 0 ==> HandleFiles([f], read).Loaded?
  {
    assert [f][0] == f;
  }
}
