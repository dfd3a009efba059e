/**
 * The one-question-at-a-time survey (components/MinimalSurvey.tsx): the
 * five questions, how the typed or selected input becomes an answer, the
 * steps forward and back with the input of the earlier question restored,
 * the keys that drive them, and the row stored when the last question is
 * answered.
 */
module MinimalSurvey {
  import opened Options
  import opened Numbers
  import opened JsText
  import opened Export
  import opened SeqUtil
  import ColumnPicker

  datatype Kind = Text | Number | YesNo | Multiple

  datatype Question = Question(id: string, text: string, kind: Kind, options: seq<string>)

  /** `questions`. */
  const Questions: seq<Question> := [
    Question("organization_name", "Organization name?", Text, []),
    Question("employee_count", "Number of employees?", Number, []),
    Question("contact_email", "Contact email?", Text, []),
    Question("has_medical", "Medical benefits?", YesNo, []),
    Question("plan_types", "Select plan types:", Multiple, ["HMO", "PPO", "HDHP", "EPO"])
  ]

  /** The answer ids, in question order. */
  const Ids: seq<string> := ["organization_name", "employee_count", "contact_email", "has_medical", "plan_types"]

  lemma IdsOfQuestions()
    ensures |Ids| == |Questions|
    ensures forall i :: 0 <= i < |Questions| ==> Questions[i].id == Ids[i]
    ensures Distinct(Ids)
  {
  }

  /** An answer as `handleNext` records it. */
  datatype Answer = Written(s: string) | Counted(n: int) | Flag(b: bool) | Chosen(options: seq<string>)

  /** The survey's state: the question on show (`|Questions|` once done),
      the answers so far by question id, the text typed and the options
      selected. */
  datatype Survey = Survey(step: nat, answers: seq<(string, Answer)>, input: string, selected: seq<string>)

  const Start: Survey := Survey(0, [], "", [])

  /** `isComplete`. */
  predicate Complete(s: Survey) {
    s.step >= |Questions|
  }

  /** `parseInt(input) || 0`: the integer the input starts with, and 0 when
      it starts with none. */
  function CountOf(input: string): (n: int)
    ensures ParseInt(input, true).None? ==> n == 0
    ensures ParseInt(input, true).Some? ==> n == ParseInt(input, true).value
  {
    var p := ParseInt(input, true);
    if p.Some? then p.value else 0
  }

  /** The answer `handleNext` records for question `q`: a yes/no answer is
      yes exactly for `y` or `yes` in any case. */
  function Convert(q: Question, input: string, selected: seq<string>): (a: Answer)
    ensures q.kind == Text ==> a == Written(input)
    ensures q.kind == Number ==> a == Counted(CountOf(input))
    ensures q.kind == YesNo ==> a == Flag(Lower(input) == "y" || Lower(input) == "yes")
    ensures q.kind == Multiple ==> a == Chosen(selected)
  {
    match q.kind
    case YesNo => Flag(Lower(input) == "y" || Lower(input) == "yes")
    case Multiple => Chosen(selected)
    case Number => Counted(CountOf(input))
    case Text => Written(input)
  }

  /** `handleNext`: the answer recorded under the question's id, the input
      and selection cleared, the next question shown; the answers are handed
      on for saving when that was the last question. */
  function Next(s: Survey): (r: (Survey, Option<seq<(string, Answer)>>))
    requires s.step < |Questions|
    ensures r.0.step == s.step + 1 && r.0.input == "" && r.0.selected == []
    ensures Get(r.0.answers, Questions[s.step].id) == Some(Convert(Questions[s.step], s.input, s.selected))
    ensures forall k :: k != Questions[s.step].id ==> Get(r.0.answers, k) == Get(s.answers, k)
    ensures r.1.Some? <==> Complete(r.0)
    ensures r.1.Some? ==> r.1.value == r.0.answers
  {
    var q := Questions[s.step];
    var answers := Put(s.answers, q.id, Convert(q, s.input, s.selected));
    var next := Survey(s.step + 1, answers, "", []);
    (next, if Complete(next) then Some(answers) else None)
  }

  /** JavaScript truthiness of a recorded answer (`undefined` when
      absent). */
  predicate AnswerTruthy(a: Option<Answer>) {
    match a
    case None => false
    case Some(Written(t)) => t != ""
    case Some(Counted(n)) => n != 0
    case Some(Flag(b)) => b
    case Some(Chosen(_)) => true
  }

  /** `prevAnswer?.toString() || ''`. */
  function AnswerText(a: Option<Answer>): string {
    match a
    case None => ""
    case Some(Written(t)) => t
    case Some(Counted(n)) => IntToString(n)
    case Some(Flag(b)) => if b then "true" else "false"
    case Some(Chosen(options)) => Join(options, ",")
  }

  /** `handlePrevious`: on any question but the first, the previous one is
      shown with its recorded answer put back: as the selection for a
      multiple choice, as `y` or `n` for a yes/no question, and as text
      otherwise. The answers are kept. */
  function Previous(s: Survey): (r: Survey)
    requires s.step <= |Questions|
    ensures s.step == 0 ==> r == s
    ensures s.step > 0 ==> r.step == s.step - 1 && r.answers == s.answers
  {
    if s.step == 0 then s
    else
      var q := Questions[s.step - 1];
      var prev := Get(s.answers, q.id);
      match q.kind
      case Multiple =>
        s.(step := s.step - 1, selected := if prev.Some? && prev.value.Chosen? then prev.value.options else [], input := "")
      case YesNo => s.(step := s.step - 1, input := if AnswerTruthy(prev) then "y" else "n")
      case Text => s.(step := s.step - 1, input := AnswerText(prev))
      case Number => s.(step := s.step - 1, input := AnswerText(prev))
  }

  /** Going forward and straight back shows the same question again with
      the input it was left with, as far as the recorded answer keeps it:
      text exactly, a number as the numeral of the integer read, a yes/no
      answer as `y` or `n`, and a selection exactly. */
  lemma NextThenPrevious(s: Survey)
    requires s.step < |Questions|
    ensures var r := Previous(Next(s).0);
      var q := Questions[s.step];
      && r.step == s.step
      && r.answers == Next(s).0.answers
      && (q.kind == Text ==> r.input == s.input)
      && (q.kind == Number ==> r.input == IntToString(CountOf(s.input)))
      && (q.kind == YesNo ==> (r.input == "y" <==> Lower(s.input) == "y" || Lower(s.input) == "yes") && (r.input == "y" || r.input == "n"))
      && (q.kind == Multiple ==> r.selected == s.selected && r.input == "")
  {
  }

  // Keys.

  datatype Key = Enter | Escape | Space | OtherKey

  /** `handleKeyDown` on the text and yes/no inputs: Enter moves on when
      something other than white space was typed, Escape goes back. */
  function InputKey(s: Survey, key: Key): (r: (Survey, Option<seq<(string, Answer)>>))
    requires s.step < |Questions|
    ensures key == Enter && Trim(s.input) != "" ==> r == Next(s)
    ensures key == Escape ==> r == (Previous(s), None)
    ensures (key == Enter && Trim(s.input) == "") || key == Space || key == OtherKey ==> r == (s, None)
  {
    if key == Enter && Trim(s.input) != "" then Next(s)
    else if key == Escape then (Previous(s), None)
    else (s, None)
  }

  /** `handleMultipleKeyDown` on one of the options: Space selects or
      deselects it, Enter moves on once something is selected, Escape goes
      back. */
  function OptionKey(s: Survey, key: Key, option: string): (r: (Survey, Option<seq<(string, Answer)>>))
    requires s.step < |Questions|
    ensures key == Space ==> r == (s.(selected := ColumnPicker.Toggle(s.selected, option)), None)
    ensures key == Enter && |s.selected| > 0 ==> r == Next(s)
    ensures key == Escape ==> r == (Previous(s), None)
    ensures (key == Enter && |s.selected| == 0) || key == OtherKey ==> r == (s, None)
  {
    if key == Space then (s.(selected := ColumnPicker.Toggle(s.selected, option)), None)
    else if key == Enter && |s.selected| > 0 then Next(s)
    else if key == Escape then (Previous(s), None)
    else (s, None)
  }

  /** A click on an option selects or deselects it. */
  function ClickOption(s: Survey, option: string): (r: Survey)
    ensures r.step == s.step && r.answers == s.answers && r.input == s.input
    ensures option in r.selected <==> option !in s.selected
    ensures forall x :: x != option ==> (x in r.selected <==> x in s.selected)
    ensures option !in s.selected ==> r.selected == s.selected + [option]
    ensures option in s.selected ==> IsSubseq(r.selected, s.selected)
    ensures option in s.selected ==> forall x :: x != option ==> multiset(r.selected)[x] == multiset(s.selected)[x]
  {
    s.(selected := ColumnPicker.Toggle(s.selected, option))
  }

  /** Typing into the input; the yes/no box takes at most three
      characters (`maxLength={3}`). */
  function Typed(s: Survey, text: string): (r: Survey)
    requires s.step < |Questions|
    ensures Questions[s.step].kind == YesNo ==> |r.input| <= 3 && r.input <= text
    ensures Questions[s.step].kind != YesNo ==> r.input == text
    ensures r.(input := s.input) == s
  {
    var t := if Questions[s.step].kind == YesNo && |text| > 3 then text[..3] else text;
    s.(input := t)
  }

  // What every reachable state satisfies.

  /** Every question before the current one has an answer, and the answers
      are keyed by question ids, each at most once. */
  predicate Valid(s: Survey) {
    && s.step <= |Questions|
    && (forall i :: 0 <= i < s.step ==> Ids[i] in KeysOf(s.answers))
    && (forall k :: k in KeysOf(s.answers) ==> k in Ids)
    && Distinct(KeysOf(s.answers))
  }

  lemma StartValid()
    ensures Valid(Start)
  {
  }

  /** A key is among the keys of a record exactly when the record holds a
      value for it. */
  lemma {:induction false} KeyHeld<V>(rec: seq<(string, V)>, k: string)
    ensures k in KeysOf(rec) <==> Get(rec, k).Some?
  {
    if |rec| > 0 {
      KeyHeld(rec[1..], k);
      assert KeysOf(rec) == [rec[0].0] + KeysOf(rec[1..]);
    }
  }

  lemma NextValid(s: Survey)
    requires Valid(s) && s.step < |Questions|
    ensures Valid(Next(s).0)
  {
    IdsOfQuestions();
    var r := Next(s).0;
    var id := Questions[s.step].id;
    forall i | 0 <= i < r.step
      ensures Ids[i] in KeysOf(r.answers)
    {
      KeyHeld(r.answers, Ids[i]);
      KeyHeld(s.answers, Ids[i]);
    }
    forall k | k in KeysOf(r.answers)
      ensures k in Ids
    {
      KeyHeld(r.answers, k);
      KeyHeld(s.answers, k);
    }
  }

  lemma PreviousValid(s: Survey)
    requires Valid(s)
    ensures Valid(Previous(s))
  {
  }

  /** Every key and click keeps the state valid, and the survey only ever
      saves answers to all five questions and nothing else. */
  lemma KeysKeepValid(s: Survey, key: Key, option: string, text: string)
    requires Valid(s) && s.step < |Questions|
    ensures Valid(InputKey(s, key).0) && Valid(OptionKey(s, key, option).0)
    ensures Valid(ClickOption(s, option)) && Valid(Typed(s, text))
    ensures var saved := InputKey(s, key).1;
      saved.Some? ==> (forall k :: k in KeysOf(saved.value) <==> k in Ids)
    ensures var saved := OptionKey(s, key, option).1;
      saved.Some? ==> (forall k :: k in KeysOf(saved.value) <==> k in Ids)
  {
    NextValid(s);
    PreviousValid(s);
    var r := Next(s).0;
    if Complete(r) {
      forall k | k in Ids
        ensures k in KeysOf(r.answers)
      {
        var i :| 0 <= i < |Ids| && Ids[i] == k;
      }
    }
  }

  // Saving.

  /** The row inserted into `response_sets`. */
  datatype ResponseRow = ResponseRow(surveyVersionId: string, status: string, createdBy: string)

  /** `saveResponse`: nothing is stored unless the store is configured, and
      the row stored names the survey version, the status and an anonymous
      author. */
  function SaveResponse(answers: seq<(string, Answer)>, configured: bool): (r: Option<ResponseRow>)
    ensures r.Some? <==> configured
  {
    if !configured then None
    else Some(ResponseRow("minimal-survey-v1", "submitted", "00000000-0000-0000-0000-000000000000"))
  }

  /** The stored row carries none of the answers: any two sets of answers
      store the same row. */
  lemma SavedRowIgnoresAnswers(a: seq<(string, Answer)>, b: seq<(string, Answer)>, configured: bool)
    ensures SaveResponse(a, configured) == SaveResponse(b, configured)
  {
  }
}
