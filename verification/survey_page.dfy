/**
 * The bookkeeping of the healthcare benefits survey page: the answers kept
 * per section, which sections count as completed, the section shown next,
 * and when the answers can be exported.
 */
module SurveyPage {
  import opened Options
  import opened Values
  import opened Export

  // Answers copied through JSON.

  /** `JSON.parse(JSON.stringify(v))` on a value inside a document: numbers
      that are not finite become `null`, everything else is copied. */
  function JsonCopy(v: Value): (r: Value)
    decreases v
  {
    match v
    case NonFinite(_) => Null
    case Arr(items) => Arr(seq(|items|, i requires 0 <= i < |items| => JsonCopy(items[i])))
    case Obj(fields) => Obj(seq(|fields|, i requires 0 <= i < |fields| => (fields[i].0, JsonCopy(fields[i].1))))
    case _ => v
  }

  /** No number in the value is `NaN` or infinite. */
  predicate JsonSafe(v: Value)
    decreases v
  {
    match v
    case NonFinite(_) => false
    case Arr(items) => forall i :: 0 <= i < |items| ==> JsonSafe(items[i])
    case Obj(fields) => forall i :: 0 <= i < |fields| ==> JsonSafe(fields[i].1)
    case _ => true
  }

  /** `sanitizeSurveyData`: `null` (or missing) answers become `{}` before
      the copy. */
  function Sanitize(data: Value): Value {
    if data == Null then Obj([]) else JsonCopy(data)
  }

  /** The copy holds only finite numbers and leaves a value that already
      does unchanged. */
  lemma {:induction false} JsonCopySafe(v: Value)
    ensures JsonSafe(JsonCopy(v))
    ensures JsonSafe(v) ==> JsonCopy(v) == v
    decreases v
  {
    match v
    case Arr(items) =>
      forall i | 0 <= i < |items| ensures JsonSafe(JsonCopy(items[i])) && (JsonSafe(items[i]) ==> JsonCopy(items[i]) == items[i]) {
        JsonCopySafe(items[i]);
      }
      if JsonSafe(v) {
        assert JsonCopy(v).items == items;
      }
    case Obj(fields) =>
      forall i | 0 <= i < |fields| ensures JsonSafe(JsonCopy(fields[i].1)) && (JsonSafe(fields[i].1) ==> JsonCopy(fields[i].1) == fields[i].1) {
        JsonCopySafe(fields[i].1);
      }
      if JsonSafe(v) {
        assert JsonCopy(v).fields == fields;
      }
    case _ =>
  }

  /** Sanitizing twice is sanitizing once, except for a bare non-finite
      number: it becomes `null` the first time and `{}` the second. */
  lemma SanitizeTwice(data: Value)
    ensures Sanitize(data) == Null <==> data.NonFinite?
    ensures !data.NonFinite? ==> Sanitize(Sanitize(data)) == Sanitize(data)
    ensures data.NonFinite? ==> Sanitize(Sanitize(data)) == Obj([])
  {
    JsonCopySafe(data);
    JsonCopySafe(JsonCopy(data));
  }

  // Completed sections.

  /** `initialCompletedSet` over the first `n` sections of the stored
      answers; `None` when the stored answers are `null`, where reading a
      section of them throws. */
  function Seeded(ids: seq<string>, stored: Value, n: nat): (r: Option<set<nat>>)
    requires n <= |ids|
    ensures r.Some? <==> stored != Null
    ensures r.Some? ==> forall i: nat :: i in r.value <==> i < n && HasContent(Member(stored, ids[i]))
  {
    if stored == Null then None
    else if n == 0 then Some({})
    else
      var before := Seeded(ids, stored, n - 1).value;
      Some(if HasContent(Member(stored, ids[n - 1])) then before + {n - 1} else before)
  }

  /** `initialCompletedSet`: the sections whose stored answers have at
      least one key. */
  function InitialCompleted(ids: seq<string>, stored: Value): Option<set<nat>> {
    Seeded(ids, stored, |ids|)
  }

  /** The page state the section handlers update. */
  datatype Page = Page(responses: seq<(string, Value)>, completed: set<nat>, current: nat)

  /** A step of the page; `finished` is the move to the completion page. */
  datatype Advance = Advance(page: Page, finished: bool)

  /** `handleSectionComplete`: the section's answers are stored under its
      id, the section is marked completed, and the next section is shown,
      or the survey finishes after the last one. */
  function CompleteSection(ids: seq<string>, p: Page, i: nat, data: Value): (r: Advance)
    requires i < |ids|
    ensures Get(r.page.responses, ids[i]) == Some(Sanitize(data))
    ensures forall k :: k != ids[i] ==> Get(r.page.responses, k) == Get(p.responses, k)
    ensures r.page.completed == p.completed + {i}
    ensures r.finished <==> i == |ids| - 1
    ensures !r.finished ==> r.page.current == i + 1 && r.page.current < |ids|
    ensures r.finished ==> r.page.current == p.current
  {
    var answers := Put(p.responses, ids[i], Sanitize(data));
    var done := p.completed + {i};
    if i < |ids| - 1 then Advance(Page(answers, done, i + 1), false)
    else Advance(Page(answers, done, p.current), true)
  }

  // Export.

  /** `hasResponses`: some section's answers have at least one key. */
  predicate HasResponses(responses: seq<(string, Value)>) {
    exists k :: 0 <= k < |responses| && HasContent(Some(responses[k].1))
  }

  /** `handleExportCsv`: the CSV of the flattened answers, or nothing at
      all without answers. */
  function ExportCsv(responses: seq<(string, Value)>): (r: Option<string>)
    ensures r.Some? <==> HasResponses(responses)
  {
    if HasResponses(responses) then Some(CsvContent(Flatten(Obj(responses)))) else None
  }

  lemma {:induction false} GetIn<V>(rec: seq<(string, V)>, k: string, v: V)
    requires Get(rec, k) == Some(v)
    ensures exists j :: 0 <= j < |rec| && rec[j] == (k, v)
    decreases |rec|
  {
    if rec[0].0 != k {
      GetIn(rec[1..], k, v);
      var j :| 0 <= j < |rec[1..]| && rec[1..][j] == (k, v);
      assert rec[j + 1] == (k, v);
    }
  }

  /** Completing a section whose answers have a key makes the answers
      exportable. */
  lemma CompleteEnablesExport(ids: seq<string>, p: Page, i: nat, data: Value)
    requires i < |ids| && HasContent(Some(Sanitize(data)))
    ensures ExportCsv(CompleteSection(ids, p, i, data).page.responses).Some?
  {
    var r := CompleteSection(ids, p, i, data).page.responses;
    GetIn(r, ids[i], Sanitize(data));
  }

  /** Sections seeded as completed from stored answers make those answers
      exportable. */
  lemma SeededEnablesExport(ids: seq<string>, responses: seq<(string, Value)>)
    requires InitialCompleted(ids, Obj(responses)).Some?
    requires InitialCompleted(ids, Obj(responses)).value != {}
    ensures ExportCsv(responses).Some?
  {
    var done := InitialCompleted(ids, Obj(responses)).value;
    var i :| i in done;
    var x := Lookup(responses, ids[i]);
    assert x.Some? && (ids[i], x.value) in responses;
    var j :| 0 <= j < |responses| && responses[j] == (ids[i], x.value);
    assert HasContent(Some(responses[j].1));
  }
}
