/**
 * The progress panel of the survey (components/SurveyProgress.tsx): each
 * section scores the share of its required fields that are filled in, as
 * a whole percentage, and the panel shows the rounded mean of the section
 * scores and how many sections are at 100%.
 *
 * Scores are whole numbers computed with integer arithmetic; `Math.round`
 * of a non-negative ratio is rounding half up.
 */
module Progress {
  import opened Options
  import opened SeqUtil
  import opened Values

  /** `Math.round(a / b)` for non-negative `a` and positive `b`: the whole
      number nearest to `a / b`, halves rounded up. */
  function RoundRatio(a: nat, b: nat): (r: nat)
    requires b > 0
    ensures 2 * b * r <= 2 * a + b < 2 * b * r + 2 * b
  {
    var m, x := 2 * b, 2 * a + b;
    assert x == m * (x / m) + x % m;
    x / m
  }

  lemma MulLe(k: nat, x: int, y: int)
    ensures x <= y ==> k * x <= k * y
  {
    assert k * y == k * x + k * (y - x);
  }

  /** The rounding is the only whole number within half of the ratio. */
  lemma RoundRatioUnique(a: nat, b: nat, r: nat)
    requires b > 0 && 2 * b * r <= 2 * a + b < 2 * b * r + 2 * b
    ensures RoundRatio(a, b) == r
  {
    var q := RoundRatio(a, b);
    MulLe(2 * b, q + 1, r);
    MulLe(2 * b, r + 1, q);
  }

  /** Rounding a larger ratio never gives a smaller whole number. */
  lemma RoundRatioMonotone(a: nat, a': nat, b: nat)
    requires b > 0 && a <= a'
    ensures RoundRatio(a, b) <= RoundRatio(a', b)
  {
    var r, r' := RoundRatio(a, b), RoundRatio(a', b);
    MulLe(2 * b, r' + 1, r);
  }

  /** `n` out of `n` is 100%. */
  lemma WholeRatio(n: nat)
    requires n > 0
    ensures RoundRatio(100 * n, n) == 100
  {
    RoundRatioUnique(100 * n, n, 100);
  }

  /** The completeness test applied to each required field: present, not
      `null` and not `''`, and then either a non-empty array, an object with
      some key, or not an object at all. */
  predicate FieldComplete(x: Option<Value>) {
    !IsBlank(x)
    && ((x.value.Arr? && |x.value.items| > 0)
        || (IsObjectType(x) && KeyCount(x.value) > 0)
        || !IsObjectType(x))
  }

  /** The test in plain terms: every present value other than `null`, `''`,
      an empty array and an empty object is complete, `0` and `false`
      included, and nested values are not inspected. */
  lemma FieldCompleteIff(x: Option<Value>)
    ensures FieldComplete(x) <==>
      x.Some? && x.value != Null && x.value != Str("") && x.value != Arr([]) && x.value != Obj([])
  {
    if x.Some? && x.value.Arr? && x.value != Arr([]) {
      assert |x.value.items| > 0;
    }
  }

  /** The number of `fields` of `v` that are complete. */
  function CompletedCount(v: Value, fields: seq<string>): (c: nat)
    requires v != Null
    ensures c <= |fields|
    ensures c == |fields| <==> forall k :: 0 <= k < |fields| ==> FieldComplete(Member(v, fields[k]))
    ensures c == 0 <==> forall k :: 0 <= k < |fields| ==> !FieldComplete(Member(v, fields[k]))
    decreases |fields|
  {
    if |fields| == 0 then 0
    else
      var rest := fields[1..];
      var c := CompletedCount(v, rest);
      assert forall k :: 1 <= k < |fields| ==> fields[k] == rest[k - 1];
      (if FieldComplete(Member(v, fields[0])) then 1 else 0) + c
  }

  /** `calculateSectionProgress`: 0 for a falsy section, otherwise the
      rounded percentage of its required fields that are complete. With no
      required field the source divides 0 by 0; its only caller never
      passes such a list. */
  function SectionScore(section: Option<Value>, fields: seq<string>): (p: nat)
    requires |fields| > 0
    ensures p <= 100
    ensures !Truthy(section) ==> p == 0
  {
    if !Truthy(section) then 0
    else
      var c := CompletedCount(section.value, fields);
      RoundRatioMonotone(100 * c, 100 * |fields|, |fields|);
      WholeRatio(|fields|);
      RoundRatio(100 * c, |fields|)
  }

  /** Filling in more fields never lowers a section's score. */
  lemma ScoreMonotone(c: nat, c': nat, n: nat)
    requires 0 < n && c <= c'
    ensures RoundRatio(100 * c, n) <= RoundRatio(100 * c', n)
  {
    RoundRatioMonotone(100 * c, 100 * c', n);
  }

  /** A rounded percentage is 100 only when every field counts, as long as
      there are fewer than 200 fields (from 200 on, one field short rounds
      up to 100). */
  lemma PercentFullIff(c: nat, n: nat)
    requires 0 < n < 200 && c <= n
    ensures RoundRatio(100 * c, n) == 100 <==> c == n
  {
    if c == n {
      WholeRatio(n);
    } else {
      MulLe(2 * n, 100, RoundRatio(100 * c, n));
    }
  }

  /** A rounded percentage is 0 only when no field counts, for at most 200
      fields. */
  lemma PercentZeroIff(c: nat, n: nat)
    requires 0 < n <= 200 && c <= n
    ensures RoundRatio(100 * c, n) == 0 <==> c == 0
  {
    if c == 0 {
      RoundRatioUnique(0, n, 0);
    }
  }

  /** With at most five required fields, a section that is not complete
      scores at most 80. */
  lemma PercentGrain(c: nat, n: nat)
    requires 0 < n <= 5 && c < n
    ensures RoundRatio(100 * c, n) <= 80
  {
    MulLe(2 * n, 81, RoundRatio(100 * c, n));
  }

  /** A section scores 100 exactly when it is truthy and every required
      field is complete. */
  lemma SectionFullIff(section: Option<Value>, fields: seq<string>)
    requires 0 < |fields| < 200
    ensures SectionScore(section, fields) == 100 <==>
      Truthy(section) && forall k :: 0 <= k < |fields| ==> FieldComplete(Member(section.value, fields[k]))
  {
    if Truthy(section) {
      PercentFullIff(CompletedCount(section.value, fields), |fields|);
    }
  }

  /** A section scores 0 exactly when it is falsy or none of its required
      fields is complete. */
  lemma SectionZeroIff(section: Option<Value>, fields: seq<string>)
    requires 0 < |fields| <= 200
    ensures SectionScore(section, fields) == 0 <==>
      !Truthy(section) || forall k :: 0 <= k < |fields| ==> !FieldComplete(Member(section.value, fields[k]))
  {
    if Truthy(section) {
      PercentZeroIff(CompletedCount(section.value, fields), |fields|);
    }
  }

  /** A section with at most five required fields scores either 100 or at
      most 80. */
  lemma SectionGrain(section: Option<Value>, fields: seq<string>)
    requires 0 < |fields| <= 5
    ensures SectionScore(section, fields) == 100 || SectionScore(section, fields) <= 80
  {
    if Truthy(section) {
      var c := CompletedCount(section.value, fields);
      if c < |fields| { PercentGrain(c, |fields|); }
      else { PercentFullIff(c, |fields|); }
    }
  }

  /** Plan sections list the single field `length`: any array, the empty
      one included, scores 100, because its length is a number and numbers,
      0 included, are complete. */
  lemma ArraySectionFull(section: Option<Value>)
    requires section.Some? && section.value.Arr?
    ensures SectionScore(section, ["length"]) == 100
  {
    SectionFullIff(section, ["length"]);
    assert Member(section.value, ["length"][0]) == Some(NatValue(|section.value.items|));
  }

  // The section table (components/SurveyProgress.tsx:40-91).

  datatype SectionConfig = SectionConfig(name: string, key: string, requiredFields: seq<string>)

  const SectionConfigs: seq<SectionConfig> := [
    SectionConfig("General Information", "generalInformation",
      ["organizationName", "contactPerson", "email", "phone", "employeeCount"]),
    SectionConfig("Medical Plans", "medicalPlans", ["length"]),
    SectionConfig("Dental Plans", "dentalPlans", ["length"]),
    SectionConfig("Vision Plans", "visionPlans", ["length"]),
    SectionConfig("Basic Life & Disability", "basicLifeDisability",
      ["basicLife", "supplementalLife", "shortTermDisability", "longTermDisability"]),
    SectionConfig("Retirement", "retirement", ["plan401k", "plan403b", "pensionPlan"]),
    SectionConfig("Time Off", "timeOff", ["paidTimeOff", "sickLeave", "holidays"]),
    SectionConfig("Benefits Strategy", "benefitsStrategy", ["objectives", "priorities", "communicationStrategy"]),
    SectionConfig("Voluntary Benefits", "voluntaryBenefits", ["criticalIllness", "accident", "hospital"]),
    SectionConfig("Best Practices", "bestPractices", ["wellnessProgram", "eap", "benefitsEducation"])
  ]

  /** Every section of the table has between one and five required
      fields. */
  lemma TableGrain()
    ensures |SectionConfigs| == 10
    ensures forall i :: 0 <= i < |SectionConfigs| ==> 0 < |SectionConfigs[i].requiredFields| <= 5
  {
  }

  /** One row of the panel; `completed` repeats the percentage and `total`
      is always 100. */
  datatype SectionRow = SectionRow(name: string, completed: nat, total: nat, percentage: nat)

  /** The section of `data` stored under `key` (`data?.[key]`). */
  function SectionOf(data: Value, key: string): Option<Value> {
    MemberOf(Some(data), key)
  }

  /** The panel rows, one per table entry, in table order. */
  function Sections(data: Value): (rows: seq<SectionRow>)
    ensures |rows| == |SectionConfigs|
    ensures forall i :: 0 <= i < |rows| ==>
      rows[i].name == SectionConfigs[i].name && rows[i].total == 100
      && rows[i].completed == rows[i].percentage && rows[i].percentage <= 100
  {
    TableGrain();
    seq(|SectionConfigs|, i requires 0 <= i < |SectionConfigs| =>
      var p := SectionScore(SectionOf(data, SectionConfigs[i].key), SectionConfigs[i].requiredFields);
      SectionRow(SectionConfigs[i].name, p, 100, p))
  }

  /** The sum of the row percentages. */
  function Total(rows: seq<SectionRow>): nat {
    if |rows| == 0 then 0 else rows[0].percentage + Total(rows[1..])
  }

  predicate Bounded(rows: seq<SectionRow>) {
    forall i :: 0 <= i < |rows| ==> rows[i].percentage <= 100
  }

  /** Percentages of at most 100 sum to at most 100 per row, and exactly
      that much only when every row is at 100. */
  lemma {:induction false} TotalBound(rows: seq<SectionRow>)
    requires Bounded(rows)
    ensures Total(rows) <= 100 * |rows|
    ensures Total(rows) == 100 * |rows| <==> forall i :: 0 <= i < |rows| ==> rows[i].percentage == 100
    decreases |rows|
  {
    if |rows| > 0 {
      var rest := rows[1..];
      assert forall i :: 1 <= i < |rows| ==> rows[i] == rest[i - 1];
      TotalBound(rest);
    }
  }

  /** One row at 80 or less takes at least 20 off the largest total. */
  lemma {:induction false} TotalShort(rows: seq<SectionRow>, j: nat)
    requires Bounded(rows) && j < |rows| && rows[j].percentage <= 80
    ensures Total(rows) + 20 <= 100 * |rows|
    decreases |rows|
  {
    var rest := rows[1..];
    assert forall i :: 1 <= i < |rows| ==> rows[i] == rest[i - 1];
    if j == 0 {
      TotalBound(rest);
    } else {
      TotalShort(rest, j - 1);
    }
  }

  /** `overallProgress`: the rounded mean of the row percentages, 0 for no
      rows. */
  function Overall(rows: seq<SectionRow>): (r: nat)
    requires Bounded(rows)
    ensures r <= 100
    ensures |rows| > 0 ==> 2 * |rows| * r <= 2 * Total(rows) + |rows| < 2 * |rows| * r + 2 * |rows|
  {
    TotalBound(rows);
    if |rows| == 0 then 0
    else
      RoundRatioMonotone(Total(rows), 100 * |rows|, |rows|);
      WholeRatio(|rows|);
      RoundRatio(Total(rows), |rows|)
  }

  /** `completedSections`: the rows at exactly 100. */
  function CompletedSections(rows: seq<SectionRow>): (n: nat)
    ensures n <= |rows|
    ensures n == |rows| <==> forall i :: 0 <= i < |rows| ==> rows[i].percentage == 100
  {
    var full := Filter((row: SectionRow) => row.percentage == 100, rows);
    FilterFull((row: SectionRow) => row.percentage == 100, rows);
    |full|
  }

  /** With fewer than 40 rows, each either complete or at most 80, the mean
      rounds to 100 exactly when every row is complete. */
  lemma {:induction false} OverallFullIff(rows: seq<SectionRow>)
    requires 0 < |rows| < 40 && Bounded(rows)
    requires forall i :: 0 <= i < |rows| ==> rows[i].percentage == 100 || rows[i].percentage <= 80
    ensures Overall(rows) == 100 <==> forall i :: 0 <= i < |rows| ==> rows[i].percentage == 100
  {
    TotalBound(rows);
    if exists j :: 0 <= j < |rows| && rows[j].percentage != 100 {
      var j :| 0 <= j < |rows| && rows[j].percentage != 100;
      TotalShort(rows, j);
    } else {
      WholeRatio(|rows|);
    }
  }

  /** The "Survey Complete" message appears exactly when every section of
      the survey is at 100%, that is when all ten sections are counted as
      completed. */
  lemma CompleteMessageTruthful(data: Value)
    ensures Overall(Sections(data)) == 100 <==> forall i :: 0 <= i < 10 ==> Sections(data)[i].percentage == 100
    ensures Overall(Sections(data)) == 100 <==> CompletedSections(Sections(data)) == 10
  {
    var rows := Sections(data);
    TableGrain();
    forall i | 0 <= i < |rows| ensures rows[i].percentage == 100 || rows[i].percentage <= 80 {
      SectionGrain(SectionOf(data, SectionConfigs[i].key), SectionConfigs[i].requiredFields);
    }
    OverallFullIff(rows);
  }

  /** The empty survey `{}` scores 0 in every section and overall. */
  lemma EmptySurveyZero()
    ensures forall i :: 0 <= i < 10 ==> Sections(Obj([]))[i].percentage == 0
    ensures Overall(Sections(Obj([]))) == 0
  {
    var rows := Sections(Obj([]));
    TableGrain();
    forall i | 0 <= i < 10 ensures rows[i].percentage == 0 {
      assert SectionOf(Obj([]), SectionConfigs[i].key).None?;
    }
    TotalZero(rows);
  }

  lemma {:induction false} TotalZero(rows: seq<SectionRow>)
    requires forall i :: 0 <= i < |rows| ==> rows[i].percentage == 0
    ensures Total(rows) == 0
    decreases |rows|
  {
    if |rows| > 0 {
      assert forall i :: 1 <= i < |rows| ==> rows[1..][i - 1] == rows[i];
      TotalZero(rows[1..]);
    }
  }
}
