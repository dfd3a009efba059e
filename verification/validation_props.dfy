/**
 * What the submission validator of hooks/useValidation.ts promises, stated
 * against the model in `Validation`: the result partitions the findings by
 * severity and is valid exactly when no finding is an error; the field
 * lookups answer from the findings filed under that field's text; and, for
 * the rules the form relies on, which findings a field gets.
 */
module ValidationProps {
  import opened Options
  import opened JsText
  import opened Paths
  import opened Patterns
  import opened SeqUtil
  import opened SurveyTypes
  import opened Validation

  /** `errors` and `warnings` together hold every finding exactly once. */
  lemma SeverityPartition(fs: seq<Finding>)
    ensures multiset(Summarize(fs).errors) + multiset(Summarize(fs).warnings) == multiset(fs)
    ensures forall f :: f in Summarize(fs).errors ==> f.severity == Error
    ensures forall f :: f in Summarize(fs).warnings ==> f.severity == Warning
  {
    FilterSplit(IsError, IsWarning, fs);
  }

  /** `isValid` holds exactly when no finding is an error; warnings never
      make a survey invalid. */
  lemma ValidIffNoError(fs: seq<Finding>)
    ensures Summarize(fs).isValid <==> forall f :: f in fs ==> f.severity != Error
  {
    var errors := Summarize(fs).errors;
    if !Summarize(fs).isValid {
      assert errors[0] in errors;
    }
  }

  /** `hasFieldError(field)` holds exactly when some error is filed under
      `field`. */
  lemma HasFieldErrorIff(fs: seq<Finding>, field: string)
    ensures HasFieldError(Summarize(fs), field) <==> exists f :: f in fs && FieldText(f) == field && f.severity == Error
  {
    var group := FieldFindings(fs, field);
    if exists f :: f in fs && FieldText(f) == field && f.severity == Error {
      var f :| f in fs && FieldText(f) == field && f.severity == Error;
      assert f in group;
      var k :| 0 <= k < |group| && group[k] == f;
    }
    if HasFieldError(Summarize(fs), field) {
      var k :| 0 <= k < |group| && group[k].severity == Error;
      assert group[k] in group;
    }
  }

  /** `hasFieldWarning(field)` holds exactly when some warning is filed
      under `field`. */
  lemma HasFieldWarningIff(fs: seq<Finding>, field: string)
    ensures HasFieldWarning(Summarize(fs), field) <==> exists f :: f in fs && FieldText(f) == field && f.severity == Warning
  {
    var group := FieldFindings(fs, field);
    if exists f :: f in fs && FieldText(f) == field && f.severity == Warning {
      var f :| f in fs && FieldText(f) == field && f.severity == Warning;
      assert f in group;
      var k :| 0 <= k < |group| && group[k] == f;
    }
    if HasFieldWarning(Summarize(fs), field) {
      var k :| 0 <= k < |group| && group[k].severity == Warning;
      assert group[k] in group;
    }
  }

  /** The findings filed under `field` are non-empty exactly when some
      finding is filed there, and the first of them is the earliest. */
  lemma FirstFiled(fs: seq<Finding>, field: string)
    ensures |FieldFindings(fs, field)| > 0 <==> exists f :: f in fs && FieldText(f) == field
    ensures |FieldFindings(fs, field)| > 0 ==>
      exists n :: 0 <= n < |fs| && fs[n] == FieldFindings(fs, field)[0]
        && FieldText(fs[n]) == field && forall m :: 0 <= m < n ==> FieldText(fs[m]) != field
  {
    var p := (f: Finding) => FieldText(f) == field;
    var group := FieldFindings(fs, field);
    if |group| > 0 {
      FilterFirst(p, fs);
      var n :| 0 <= n < |fs| && fs[n] == group[0] && p(fs[n]) && Fails(p, fs[..n]);
      assert FieldText(fs[n]) == field;
      forall m | 0 <= m < n ensures FieldText(fs[m]) != field {
        assert fs[m] == fs[..n][m];
      }
      assert fs[n] in fs;
    } else {
      assert forall f :: f in fs ==> FieldText(f) != field;
    }
  }

  /** `getFieldError(field)` is the earliest finding filed under `field`,
      and there is one exactly when some finding is filed there. */
  lemma GetFieldErrorFirst(fs: seq<Finding>, field: string)
    ensures GetFieldError(Summarize(fs), field).Some? <==> exists f :: f in fs && FieldText(f) == field
    ensures GetFieldError(Summarize(fs), field).Some? ==>
      exists n :: 0 <= n < |fs| && fs[n] == GetFieldError(Summarize(fs), field).value
        && FieldText(fs[n]) == field && forall m :: 0 <= m < n ==> FieldText(fs[m]) != field
  {
    var r := Summarize(fs);
    assert Recorded(r, field) == FieldFindings(fs, field);
    Lookups(r, field);
    FirstFiled(fs, field);
  }

  // From field text to path.

  predicate PathsWellFormed(fs: seq<Finding>) {
    forall f :: f in fs ==> WellFormed(f.path)
  }

  /** Every finding of the validator is filed at a well-formed path. */
  lemma AllFindingsWellFormed(d: SurveyData)
    ensures PathsWellFormed(AllFindings(d))
  {
  }

  /** On well-formed paths, the findings filed under the text of `p` are
      the findings filed at `p`. */
  lemma FieldIsPath(fs: seq<Finding>, p: Path)
    requires PathsWellFormed(fs) && WellFormed(p)
    ensures FieldFindings(fs, Render(p)) == PathFindings(fs, p)
  {
    forall f | f in fs ensures (FieldText(f) == Render(p)) == (f.path == p) {
      if FieldText(f) == Render(p) { RenderInjective(f.path, p); }
    }
    FilterCongruent((f: Finding) => FieldText(f) == Render(p), (f: Finding) => f.path == p, fs);
  }

  /** A section whose findings all lie below `prefix` has none at a path
      that leaves `prefix`. */
  lemma PathFindingsOutside(fs: seq<Finding>, prefix: Path, p: Path)
    requires AllUnder(fs, prefix)
    requires |p| < |prefix| || p[..|prefix|] != prefix
    ensures PathFindings(fs, p) == []
  {
    forall f | f in fs ensures f.path != p {
      assert Under(f.path, prefix);
    }
    FilterNone((f: Finding) => f.path == p, fs);
  }

  lemma PathFindingsConcat(a: seq<Finding>, b: seq<Finding>, p: Path)
    ensures PathFindings(a + b, p) == PathFindings(a, p) + PathFindings(b, p)
  {
    FilterConcat((f: Finding) => f.path == p, a, b);
  }

  /** The findings at `q`, section by section. */
  lemma SectionSplit(d: SurveyData, q: Path)
    ensures PathFindings(AllFindings(d), q) ==
      PathFindings(GeneralPart(d), q) + PathFindings(MedicalPart(d), q)
      + PathFindings(DentalPart(d), q) + PathFindings(RetirementPart(d), q)
  {
    var general, medical, dental, retirement := GeneralPart(d), MedicalPart(d), DentalPart(d), RetirementPart(d);
    PathFindingsConcat(general + medical + dental, retirement, q);
    PathFindingsConcat(general + medical, dental, q);
    PathFindingsConcat(general, medical, q);
  }

  /** The four sections file under four different first segments. */
  lemma SectionKeysDistinct()
    ensures GeneralInformationKey != MedicalPlansKey && GeneralInformationKey != DentalPlansKey
    ensures GeneralInformationKey != RetirementKey && MedicalPlansKey != DentalPlansKey
    ensures MedicalPlansKey != RetirementKey && DentalPlansKey != RetirementKey
  {
    assert |GeneralInformationKey| == 18 && |MedicalPlansKey| == 12;
    assert |DentalPlansKey| == 11 && |RetirementKey| == 10;
  }

  /** Each section files nothing at a path that starts elsewhere. */
  lemma GeneralAway(d: SurveyData, q: Path)
    requires |q| > 0 && q[0] != Key(GeneralInformationKey)
    ensures PathFindings(GeneralPart(d), q) == []
  {
    assert q[..1] != GeneralPrefix by { assert q[..1][0] == q[0]; }
    PathFindingsOutside(GeneralPart(d), GeneralPrefix, q);
  }

  lemma MedicalAway(d: SurveyData, q: Path)
    requires |q| > 0 && q[0] != Key(MedicalPlansKey)
    ensures PathFindings(MedicalPart(d), q) == []
  {
    assert q[..1] != MedicalPrefix by { assert q[..1][0] == q[0]; }
    PathFindingsOutside(MedicalPart(d), MedicalPrefix, q);
  }

  lemma DentalAway(d: SurveyData, q: Path)
    requires |q| > 0 && q[0] != Key(DentalPlansKey)
    ensures PathFindings(DentalPart(d), q) == []
  {
    assert q[..1] != DentalPrefix by { assert q[..1][0] == q[0]; }
    PathFindingsOutside(DentalPart(d), DentalPrefix, q);
  }

  lemma RetirementAway(d: SurveyData, q: Path)
    requires |q| > 0 && q[0] != Key(RetirementKey)
    ensures PathFindings(RetirementPart(d), q) == []
  {
    assert q[..1] != RetirementPrefix by { assert q[..1][0] == q[0]; }
    PathFindingsOutside(RetirementPart(d), RetirementPrefix, q);
  }

  /** The findings at a general-information field come from that section
      alone. */
  lemma GeneralFieldFindings(d: SurveyData, name: Name)
    ensures PathFindings(AllFindings(d), GeneralPath(name)) == PathFindings(GeneralPart(d), GeneralPath(name))
  {
    var q := GeneralPath(name);
    SectionKeysDistinct();
    MedicalAway(d, q);
    DentalAway(d, q);
    RetirementAway(d, q);
    SectionSplit(d, q);
  }

  // The general-information fields.

  /** The field text of a general-information field. */
  lemma GeneralPathText(name: Name)
    ensures Render(GeneralPath(name)) == "generalInformation." + name
  {
    var p := GeneralPath(name);
    assert p[1..][1..] == [];
    assert RenderFrom(p[1..], false) == "." + name + RenderFrom(p[1..][1..], false);
  }

  lemma GeneralRuleAt(c: bool, name: Name, message: Message, kind: Kind, severity: Severity, other: Name)
    ensures PathFindings(GeneralRule(c, name, message, kind, severity), GeneralPath(other)) ==
      if name == other then GeneralRule(c, name, message, kind, severity) else []
  {
    GeneralPathInjective(name, other);
  }

  lemma GeneralPathInjective(a: Name, b: Name)
    ensures GeneralPath(a) == GeneralPath(b) <==> a == b
  {
    if GeneralPath(a) == GeneralPath(b) {
      assert GeneralPath(a)[1] == GeneralPath(b)[1];
    }
  }

  /** The general-information findings at one path, rule by rule. */
  lemma GeneralAt(k: GeneralChecks, q: Path)
    ensures PathFindings(GeneralFindingsOf(k), q) ==
      PathFindings(GeneralRule(k.organizationBlank, OrganizationNameKey, OrganizationNameMissing, Required, Error), q)
      + PathFindings(EmailFindings(k.emailBlank, k.emailMalformed), q)
      + PathFindings(GeneralRule(k.contactBlank, ContactPersonKey, ContactPersonMissing, Required, Error), q)
      + PathFindings(GeneralRule(k.phoneMalformed, PhoneKey, PhoneMalformed, Format, Warning), q)
      + PathFindings(EmployeeCountFindings(k.countNegative, k.countZero), q)
      + PathFindings(GeneralRule(k.eligibleExceeds, EligibleEmployeesKey, EligibleExceedsCount, Logic, Error), q)
      + PathFindings(GeneralRule(k.ageOutOfRange, AverageAgeKey, AverageAgeOutOfRange, Range, Warning), q)
  {
    var organization := GeneralRule(k.organizationBlank, OrganizationNameKey, OrganizationNameMissing, Required, Error);
    var email := EmailFindings(k.emailBlank, k.emailMalformed);
    var contact := GeneralRule(k.contactBlank, ContactPersonKey, ContactPersonMissing, Required, Error);
    var phone := GeneralRule(k.phoneMalformed, PhoneKey, PhoneMalformed, Format, Warning);
    var count := EmployeeCountFindings(k.countNegative, k.countZero);
    var eligible := GeneralRule(k.eligibleExceeds, EligibleEmployeesKey, EligibleExceedsCount, Logic, Error);
    var age := GeneralRule(k.ageOutOfRange, AverageAgeKey, AverageAgeOutOfRange, Range, Warning);
    assert GeneralFindingsOf(k) == organization + email + contact + phone + count + eligible + age;
    PathFindingsConcat(organization + email + contact + phone + count + eligible, age, q);
    PathFindingsConcat(organization + email + contact + phone + count, eligible, q);
    PathFindingsConcat(organization + email + contact + phone, count, q);
    PathFindingsConcat(organization + email + contact, phone, q);
    PathFindingsConcat(organization + email, contact, q);
    PathFindingsConcat(organization, email, q);
  }

  lemma EmailAt(blank: bool, malformed: bool, other: Name)
    ensures PathFindings(EmailFindings(blank, malformed), GeneralPath(other)) ==
      if other == EmailKey then EmailFindings(blank, malformed) else []
  {
    GeneralPathInjective(other, EmailKey);
  }

  lemma EmployeeCountAt(negative: bool, zero: bool, other: Name)
    ensures PathFindings(EmployeeCountFindings(negative, zero), GeneralPath(other)) ==
      if other == EmployeeCountKey then EmployeeCountFindings(negative, zero) else []
  {
    GeneralPathInjective(other, EmployeeCountKey);
  }

  /** A sum of seven blocks of which all but one are empty is that block. */
  lemma OnlyFirst(a: seq<Finding>, b: seq<Finding>, c: seq<Finding>, d: seq<Finding>,
    e: seq<Finding>, f: seq<Finding>, g: seq<Finding>)
    requires b == [] && c == [] && d == [] && e == [] && f == [] && g == []
    ensures a + b + c + d + e + f + g == a
  {
  }

  lemma OnlySecond(a: seq<Finding>, b: seq<Finding>, c: seq<Finding>, d: seq<Finding>,
    e: seq<Finding>, f: seq<Finding>, g: seq<Finding>)
    requires a == [] && c == [] && d == [] && e == [] && f == [] && g == []
    ensures a + b + c + d + e + f + g == b
  {
  }

  lemma OnlyThird(a: seq<Finding>, b: seq<Finding>, c: seq<Finding>, d: seq<Finding>,
    e: seq<Finding>, f: seq<Finding>, g: seq<Finding>)
    requires a == [] && b == [] && d == [] && e == [] && f == [] && g == []
    ensures a + b + c + d + e + f + g == c
  {
  }

  lemma OnlyFourth(a: seq<Finding>, b: seq<Finding>, c: seq<Finding>, d: seq<Finding>,
    e: seq<Finding>, f: seq<Finding>, g: seq<Finding>)
    requires a == [] && b == [] && c == [] && e == [] && f == [] && g == []
    ensures a + b + c + d + e + f + g == d
  {
  }

  lemma OnlyFifth(a: seq<Finding>, b: seq<Finding>, c: seq<Finding>, d: seq<Finding>,
    e: seq<Finding>, f: seq<Finding>, g: seq<Finding>)
    requires a == [] && b == [] && c == [] && d == [] && f == [] && g == []
    ensures a + b + c + d + e + f + g == e
  {
  }

  lemma OnlySixth(a: seq<Finding>, b: seq<Finding>, c: seq<Finding>, d: seq<Finding>,
    e: seq<Finding>, f: seq<Finding>, g: seq<Finding>)
    requires a == [] && b == [] && c == [] && d == [] && e == [] && g == []
    ensures a + b + c + d + e + f + g == f
  {
  }

  lemma OnlySeventh(a: seq<Finding>, b: seq<Finding>, c: seq<Finding>, d: seq<Finding>,
    e: seq<Finding>, f: seq<Finding>, g: seq<Finding>)
    requires a == [] && b == [] && c == [] && d == [] && e == [] && f == []
    ensures a + b + c + d + e + f + g == g
  {
  }

  /** The list `fieldErrors` keeps under `field`, empty when it keeps none. */
  function Recorded(r: ValidationResult, field: string): seq<Finding> {
    if field in r.fieldErrors then r.fieldErrors[field] else []
  }

  /** The three lookups of the form read the recorded list: the first
      finding, and whether some finding is an error or a warning. */
  lemma Lookups(r: ValidationResult, field: string)
    ensures GetFieldError(r, field) == if |Recorded(r, field)| == 0 then None else Some(Recorded(r, field)[0])
    ensures HasFieldError(r, field) <==> SomeWithSeverity(Recorded(r, field), Error)
    ensures HasFieldWarning(r, field) <==> SomeWithSeverity(Recorded(r, field), Warning)
  {
  }

  /** The list recorded under a field's text is the findings filed at its
      path, in order. */
  lemma RecordedAt(d: SurveyData, p: Path)
    requires WellFormed(p)
    ensures Recorded(ValidateData(d), Render(p)) == PathFindings(AllFindings(d), p)
  {
    AllFindingsWellFormed(d);
    FieldIsPath(AllFindings(d), p);
  }

  /** The list recorded under a general-information field is what that
      section files there. */
  lemma GeneralRecorded(d: SurveyData, name: Name)
    ensures Recorded(ValidateData(d), Render(GeneralPath(name))) ==
      if d.generalInformation.None? then [] else PathFindings(GeneralFindings(d.generalInformation.value), GeneralPath(name))
  {
    RecordedAt(d, GeneralPath(name));
    GeneralFieldFindings(d, name);
  }

  /** The only general-information rule filing at `organizationName` is its own. */
  lemma OrganizationNameField(k: GeneralChecks)
    ensures PathFindings(GeneralFindingsOf(k), GeneralPath(OrganizationNameKey)) == GeneralRule(k.organizationBlank, OrganizationNameKey, OrganizationNameMissing, Required, Error)
  {
    var q := GeneralPath(OrganizationNameKey);
    GeneralAt(k, q);
    EmailAt(k.emailBlank, k.emailMalformed, OrganizationNameKey);
    EmployeeCountAt(k.countNegative, k.countZero, OrganizationNameKey);
    GeneralRuleAt(k.organizationBlank, OrganizationNameKey, OrganizationNameMissing, Required, Error, OrganizationNameKey);
    GeneralRuleAt(k.contactBlank, ContactPersonKey, ContactPersonMissing, Required, Error, OrganizationNameKey);
    GeneralRuleAt(k.phoneMalformed, PhoneKey, PhoneMalformed, Format, Warning, OrganizationNameKey);
    GeneralRuleAt(k.eligibleExceeds, EligibleEmployeesKey, EligibleExceedsCount, Logic, Error, OrganizationNameKey);
    GeneralRuleAt(k.ageOutOfRange, AverageAgeKey, AverageAgeOutOfRange, Range, Warning, OrganizationNameKey);
    OnlyFirst(
      PathFindings(GeneralRule(k.organizationBlank, OrganizationNameKey, OrganizationNameMissing, Required, Error), q),
      PathFindings(EmailFindings(k.emailBlank, k.emailMalformed), q),
      PathFindings(GeneralRule(k.contactBlank, ContactPersonKey, ContactPersonMissing, Required, Error), q),
      PathFindings(GeneralRule(k.phoneMalformed, PhoneKey, PhoneMalformed, Format, Warning), q),
      PathFindings(EmployeeCountFindings(k.countNegative, k.countZero), q),
      PathFindings(GeneralRule(k.eligibleExceeds, EligibleEmployeesKey, EligibleExceedsCount, Logic, Error), q),
      PathFindings(GeneralRule(k.ageOutOfRange, AverageAgeKey, AverageAgeOutOfRange, Range, Warning), q));
  }

  /** The only general-information rule filing at `email` is its own. */
  lemma EmailField(k: GeneralChecks)
    ensures PathFindings(GeneralFindingsOf(k), GeneralPath(EmailKey)) == EmailFindings(k.emailBlank, k.emailMalformed)
  {
    var q := GeneralPath(EmailKey);
    GeneralAt(k, q);
    EmailAt(k.emailBlank, k.emailMalformed, EmailKey);
    EmployeeCountAt(k.countNegative, k.countZero, EmailKey);
    GeneralRuleAt(k.organizationBlank, OrganizationNameKey, OrganizationNameMissing, Required, Error, EmailKey);
    GeneralRuleAt(k.contactBlank, ContactPersonKey, ContactPersonMissing, Required, Error, EmailKey);
    GeneralRuleAt(k.phoneMalformed, PhoneKey, PhoneMalformed, Format, Warning, EmailKey);
    GeneralRuleAt(k.eligibleExceeds, EligibleEmployeesKey, EligibleExceedsCount, Logic, Error, EmailKey);
    GeneralRuleAt(k.ageOutOfRange, AverageAgeKey, AverageAgeOutOfRange, Range, Warning, EmailKey);
    OnlySecond(
      PathFindings(GeneralRule(k.organizationBlank, OrganizationNameKey, OrganizationNameMissing, Required, Error), q),
      PathFindings(EmailFindings(k.emailBlank, k.emailMalformed), q),
      PathFindings(GeneralRule(k.contactBlank, ContactPersonKey, ContactPersonMissing, Required, Error), q),
      PathFindings(GeneralRule(k.phoneMalformed, PhoneKey, PhoneMalformed, Format, Warning), q),
      PathFindings(EmployeeCountFindings(k.countNegative, k.countZero), q),
      PathFindings(GeneralRule(k.eligibleExceeds, EligibleEmployeesKey, EligibleExceedsCount, Logic, Error), q),
      PathFindings(GeneralRule(k.ageOutOfRange, AverageAgeKey, AverageAgeOutOfRange, Range, Warning), q));
  }

  /** The only general-information rule filing at `contactPerson` is its own. */
  lemma ContactPersonField(k: GeneralChecks)
    ensures PathFindings(GeneralFindingsOf(k), GeneralPath(ContactPersonKey)) == GeneralRule(k.contactBlank, ContactPersonKey, ContactPersonMissing, Required, Error)
  {
    var q := GeneralPath(ContactPersonKey);
    GeneralAt(k, q);
    EmailAt(k.emailBlank, k.emailMalformed, ContactPersonKey);
    EmployeeCountAt(k.countNegative, k.countZero, ContactPersonKey);
    GeneralRuleAt(k.organizationBlank, OrganizationNameKey, OrganizationNameMissing, Required, Error, ContactPersonKey);
    GeneralRuleAt(k.contactBlank, ContactPersonKey, ContactPersonMissing, Required, Error, ContactPersonKey);
    GeneralRuleAt(k.phoneMalformed, PhoneKey, PhoneMalformed, Format, Warning, ContactPersonKey);
    GeneralRuleAt(k.eligibleExceeds, EligibleEmployeesKey, EligibleExceedsCount, Logic, Error, ContactPersonKey);
    GeneralRuleAt(k.ageOutOfRange, AverageAgeKey, AverageAgeOutOfRange, Range, Warning, ContactPersonKey);
    OnlyThird(
      PathFindings(GeneralRule(k.organizationBlank, OrganizationNameKey, OrganizationNameMissing, Required, Error), q),
      PathFindings(EmailFindings(k.emailBlank, k.emailMalformed), q),
      PathFindings(GeneralRule(k.contactBlank, ContactPersonKey, ContactPersonMissing, Required, Error), q),
      PathFindings(GeneralRule(k.phoneMalformed, PhoneKey, PhoneMalformed, Format, Warning), q),
      PathFindings(EmployeeCountFindings(k.countNegative, k.countZero), q),
      PathFindings(GeneralRule(k.eligibleExceeds, EligibleEmployeesKey, EligibleExceedsCount, Logic, Error), q),
      PathFindings(GeneralRule(k.ageOutOfRange, AverageAgeKey, AverageAgeOutOfRange, Range, Warning), q));
  }

  /** The only general-information rule filing at `phone` is its own. */
  lemma PhoneField(k: GeneralChecks)
    ensures PathFindings(GeneralFindingsOf(k), GeneralPath(PhoneKey)) == GeneralRule(k.phoneMalformed, PhoneKey, PhoneMalformed, Format, Warning)
  {
    var q := GeneralPath(PhoneKey);
    GeneralAt(k, q);
    EmailAt(k.emailBlank, k.emailMalformed, PhoneKey);
    EmployeeCountAt(k.countNegative, k.countZero, PhoneKey);
    GeneralRuleAt(k.organizationBlank, OrganizationNameKey, OrganizationNameMissing, Required, Error, PhoneKey);
    GeneralRuleAt(k.contactBlank, ContactPersonKey, ContactPersonMissing, Required, Error, PhoneKey);
    GeneralRuleAt(k.phoneMalformed, PhoneKey, PhoneMalformed, Format, Warning, PhoneKey);
    GeneralRuleAt(k.eligibleExceeds, EligibleEmployeesKey, EligibleExceedsCount, Logic, Error, PhoneKey);
    GeneralRuleAt(k.ageOutOfRange, AverageAgeKey, AverageAgeOutOfRange, Range, Warning, PhoneKey);
    OnlyFourth(
      PathFindings(GeneralRule(k.organizationBlank, OrganizationNameKey, OrganizationNameMissing, Required, Error), q),
      PathFindings(EmailFindings(k.emailBlank, k.emailMalformed), q),
      PathFindings(GeneralRule(k.contactBlank, ContactPersonKey, ContactPersonMissing, Required, Error), q),
      PathFindings(GeneralRule(k.phoneMalformed, PhoneKey, PhoneMalformed, Format, Warning), q),
      PathFindings(EmployeeCountFindings(k.countNegative, k.countZero), q),
      PathFindings(GeneralRule(k.eligibleExceeds, EligibleEmployeesKey, EligibleExceedsCount, Logic, Error), q),
      PathFindings(GeneralRule(k.ageOutOfRange, AverageAgeKey, AverageAgeOutOfRange, Range, Warning), q));
  }

  /** The only general-information rule filing at `employeeCount` is its own. */
  lemma EmployeeCountField(k: GeneralChecks)
    ensures PathFindings(GeneralFindingsOf(k), GeneralPath(EmployeeCountKey)) == EmployeeCountFindings(k.countNegative, k.countZero)
  {
    var q := GeneralPath(EmployeeCountKey);
    GeneralAt(k, q);
    EmailAt(k.emailBlank, k.emailMalformed, EmployeeCountKey);
    EmployeeCountAt(k.countNegative, k.countZero, EmployeeCountKey);
    GeneralRuleAt(k.organizationBlank, OrganizationNameKey, OrganizationNameMissing, Required, Error, EmployeeCountKey);
    GeneralRuleAt(k.contactBlank, ContactPersonKey, ContactPersonMissing, Required, Error, EmployeeCountKey);
    GeneralRuleAt(k.phoneMalformed, PhoneKey, PhoneMalformed, Format, Warning, EmployeeCountKey);
    GeneralRuleAt(k.eligibleExceeds, EligibleEmployeesKey, EligibleExceedsCount, Logic, Error, EmployeeCountKey);
    GeneralRuleAt(k.ageOutOfRange, AverageAgeKey, AverageAgeOutOfRange, Range, Warning, EmployeeCountKey);
    OnlyFifth(
      PathFindings(GeneralRule(k.organizationBlank, OrganizationNameKey, OrganizationNameMissing, Required, Error), q),
      PathFindings(EmailFindings(k.emailBlank, k.emailMalformed), q),
      PathFindings(GeneralRule(k.contactBlank, ContactPersonKey, ContactPersonMissing, Required, Error), q),
      PathFindings(GeneralRule(k.phoneMalformed, PhoneKey, PhoneMalformed, Format, Warning), q),
      PathFindings(EmployeeCountFindings(k.countNegative, k.countZero), q),
      PathFindings(GeneralRule(k.eligibleExceeds, EligibleEmployeesKey, EligibleExceedsCount, Logic, Error), q),
      PathFindings(GeneralRule(k.ageOutOfRange, AverageAgeKey, AverageAgeOutOfRange, Range, Warning), q));
  }

  /** The only general-information rule filing at `eligibleEmployees` is its own. */
  lemma EligibleEmployeesField(k: GeneralChecks)
    ensures PathFindings(GeneralFindingsOf(k), GeneralPath(EligibleEmployeesKey)) == GeneralRule(k.eligibleExceeds, EligibleEmployeesKey, EligibleExceedsCount, Logic, Error)
  {
    var q := GeneralPath(EligibleEmployeesKey);
    GeneralAt(k, q);
    EmailAt(k.emailBlank, k.emailMalformed, EligibleEmployeesKey);
    EmployeeCountAt(k.countNegative, k.countZero, EligibleEmployeesKey);
    GeneralRuleAt(k.organizationBlank, OrganizationNameKey, OrganizationNameMissing, Required, Error, EligibleEmployeesKey);
    GeneralRuleAt(k.contactBlank, ContactPersonKey, ContactPersonMissing, Required, Error, EligibleEmployeesKey);
    GeneralRuleAt(k.phoneMalformed, PhoneKey, PhoneMalformed, Format, Warning, EligibleEmployeesKey);
    GeneralRuleAt(k.eligibleExceeds, EligibleEmployeesKey, EligibleExceedsCount, Logic, Error, EligibleEmployeesKey);
    GeneralRuleAt(k.ageOutOfRange, AverageAgeKey, AverageAgeOutOfRange, Range, Warning, EligibleEmployeesKey);
    OnlySixth(
      PathFindings(GeneralRule(k.organizationBlank, OrganizationNameKey, OrganizationNameMissing, Required, Error), q),
      PathFindings(EmailFindings(k.emailBlank, k.emailMalformed), q),
      PathFindings(GeneralRule(k.contactBlank, ContactPersonKey, ContactPersonMissing, Required, Error), q),
      PathFindings(GeneralRule(k.phoneMalformed, PhoneKey, PhoneMalformed, Format, Warning), q),
      PathFindings(EmployeeCountFindings(k.countNegative, k.countZero), q),
      PathFindings(GeneralRule(k.eligibleExceeds, EligibleEmployeesKey, EligibleExceedsCount, Logic, Error), q),
      PathFindings(GeneralRule(k.ageOutOfRange, AverageAgeKey, AverageAgeOutOfRange, Range, Warning), q));
  }

  /** The only general-information rule filing at `averageAge` is its own. */
  lemma AverageAgeField(k: GeneralChecks)
    ensures PathFindings(GeneralFindingsOf(k), GeneralPath(AverageAgeKey)) == GeneralRule(k.ageOutOfRange, AverageAgeKey, AverageAgeOutOfRange, Range, Warning)
  {
    var q := GeneralPath(AverageAgeKey);
    GeneralAt(k, q);
    EmailAt(k.emailBlank, k.emailMalformed, AverageAgeKey);
    EmployeeCountAt(k.countNegative, k.countZero, AverageAgeKey);
    GeneralRuleAt(k.organizationBlank, OrganizationNameKey, OrganizationNameMissing, Required, Error, AverageAgeKey);
    GeneralRuleAt(k.contactBlank, ContactPersonKey, ContactPersonMissing, Required, Error, AverageAgeKey);
    GeneralRuleAt(k.phoneMalformed, PhoneKey, PhoneMalformed, Format, Warning, AverageAgeKey);
    GeneralRuleAt(k.eligibleExceeds, EligibleEmployeesKey, EligibleExceedsCount, Logic, Error, AverageAgeKey);
    GeneralRuleAt(k.ageOutOfRange, AverageAgeKey, AverageAgeOutOfRange, Range, Warning, AverageAgeKey);
    OnlySeventh(
      PathFindings(GeneralRule(k.organizationBlank, OrganizationNameKey, OrganizationNameMissing, Required, Error), q),
      PathFindings(EmailFindings(k.emailBlank, k.emailMalformed), q),
      PathFindings(GeneralRule(k.contactBlank, ContactPersonKey, ContactPersonMissing, Required, Error), q),
      PathFindings(GeneralRule(k.phoneMalformed, PhoneKey, PhoneMalformed, Format, Warning), q),
      PathFindings(EmployeeCountFindings(k.countNegative, k.countZero), q),
      PathFindings(GeneralRule(k.eligibleExceeds, EligibleEmployeesKey, EligibleExceedsCount, Logic, Error), q),
      PathFindings(GeneralRule(k.ageOutOfRange, AverageAgeKey, AverageAgeOutOfRange, Range, Warning), q));
  }

  // What the form sees at each general-information field.

  // The field texts of the general-information fields.

  lemma OrganizationNameText()
    ensures Render(GeneralPath(OrganizationNameKey)) == "generalInformation.organizationName"
  {
    GeneralPathText(OrganizationNameKey);
  }

  lemma ContactPersonText()
    ensures Render(GeneralPath(ContactPersonKey)) == "generalInformation.contactPerson"
  {
    GeneralPathText(ContactPersonKey);
  }

  lemma EmailText()
    ensures Render(GeneralPath(EmailKey)) == "generalInformation.email"
  {
    GeneralPathText(EmailKey);
  }

  lemma PhoneText()
    ensures Render(GeneralPath(PhoneKey)) == "generalInformation.phone"
  {
    GeneralPathText(PhoneKey);
  }

  lemma EmployeeCountText()
    ensures Render(GeneralPath(EmployeeCountKey)) == "generalInformation.employeeCount"
  {
    GeneralPathText(EmployeeCountKey);
  }

  lemma EligibleEmployeesText()
    ensures Render(GeneralPath(EligibleEmployeesKey)) == "generalInformation.eligibleEmployees"
  {
    GeneralPathText(EligibleEmployeesKey);
  }

  lemma AverageAgeText()
    ensures Render(GeneralPath(AverageAgeKey)) == "generalInformation.averageAge"
  {
    GeneralPathText(AverageAgeKey);
  }

  /** A missing or blank organization name is one required error; anything
      else leaves the field clean. */
  lemma OrganizationNameRecorded(d: SurveyData)
    ensures Recorded(ValidateData(d), "generalInformation.organizationName") ==
      if d.generalInformation.Some? && Blank(d.generalInformation.value.organizationName)
      then [Finding(GeneralPath(OrganizationNameKey), OrganizationNameMissing, Required, Error)]
      else []
  {
    GeneralRecorded(d, OrganizationNameKey);
    OrganizationNameText();
    if d.generalInformation.Some? {
      OrganizationNameField(CheckGeneral(d.generalInformation.value));
    }
  }

  /** A missing or blank contact person is one required error. */
  lemma ContactPersonRecorded(d: SurveyData)
    ensures Recorded(ValidateData(d), "generalInformation.contactPerson") ==
      if d.generalInformation.Some? && Blank(d.generalInformation.value.contactPerson)
      then [Finding(GeneralPath(ContactPersonKey), ContactPersonMissing, Required, Error)]
      else []
  {
    GeneralRecorded(d, ContactPersonKey);
    ContactPersonText();
    if d.generalInformation.Some? {
      ContactPersonField(CheckGeneral(d.generalInformation.value));
    }
  }

  /** The e-mail field gets at most one finding: a required error when the
      address is blank, otherwise a format error when the untrimmed address
      is not of the shape `^[^\s@]+@[^\s@]+\.[^\s@]+$`. */
  lemma EmailRecorded(d: SurveyData)
    ensures Recorded(ValidateData(d), "generalInformation.email") ==
      if d.generalInformation.None? then []
      else if Blank(d.generalInformation.value.email)
      then [Finding(GeneralPath(EmailKey), EmailMissing, Required, Error)]
      else if !EmailRef(d.generalInformation.value.email.value)
      then [Finding(GeneralPath(EmailKey), EmailMalformed, Format, Error)]
      else []
  {
    GeneralRecorded(d, EmailKey);
    EmailText();
    if d.generalInformation.Some? {
      var gi := d.generalInformation.value;
      EmailField(CheckGeneral(gi));
      if !Blank(gi.email) {
        EmailShapeIsRef(gi.email.value);
      }
    }
  }

  /** A non-empty phone number of the wrong shape is a format warning. */
  lemma PhoneRecorded(d: SurveyData)
    ensures Recorded(ValidateData(d), "generalInformation.phone") ==
      if d.generalInformation.Some? && Filled(d.generalInformation.value.phone)
        && !PhoneShape(d.generalInformation.value.phone.value)
      then [Finding(GeneralPath(PhoneKey), PhoneMalformed, Format, Warning)]
      else []
  {
    GeneralRecorded(d, PhoneKey);
    PhoneText();
    if d.generalInformation.Some? {
      PhoneField(CheckGeneral(d.generalInformation.value));
    }
  }

  /** A negative employee count is a range error, a zero count a range
      warning. */
  lemma EmployeeCountRecorded(d: SurveyData)
    ensures Recorded(ValidateData(d), "generalInformation.employeeCount") ==
      if d.generalInformation.None? || d.generalInformation.value.employeeCount.None? then []
      else if d.generalInformation.value.employeeCount.value < 0.0
      then [Finding(GeneralPath(EmployeeCountKey), EmployeeCountNegative, Range, Error)]
      else if d.generalInformation.value.employeeCount.value == 0.0
      then [Finding(GeneralPath(EmployeeCountKey), EmployeeCountZero, Range, Warning)]
      else []
  {
    GeneralRecorded(d, EmployeeCountKey);
    EmployeeCountText();
    if d.generalInformation.Some? {
      EmployeeCountField(CheckGeneral(d.generalInformation.value));
    }
  }

  /** More eligible employees than employees, both given, is exactly one
      logic error at `generalInformation.eligibleEmployees`. */
  lemma EligibleEmployeesRecorded(d: SurveyData)
    ensures Recorded(ValidateData(d), "generalInformation.eligibleEmployees") ==
      if d.generalInformation.Some? && d.generalInformation.value.employeeCount.Some?
        && d.generalInformation.value.eligibleEmployees.Some?
        && d.generalInformation.value.eligibleEmployees.value > d.generalInformation.value.employeeCount.value
      then [Finding(GeneralPath(EligibleEmployeesKey), EligibleExceedsCount, Logic, Error)]
      else []
  {
    GeneralRecorded(d, EligibleEmployeesKey);
    EligibleEmployeesText();
    if d.generalInformation.Some? {
      EligibleEmployeesField(CheckGeneral(d.generalInformation.value));
    }
  }

  /** An average age outside [18, 100] is a range warning. */
  lemma AverageAgeRecorded(d: SurveyData)
    ensures Recorded(ValidateData(d), "generalInformation.averageAge") ==
      if d.generalInformation.Some? && d.generalInformation.value.averageAge.Some?
        && (d.generalInformation.value.averageAge.value < 18.0 || d.generalInformation.value.averageAge.value > 100.0)
      then [Finding(GeneralPath(AverageAgeKey), AverageAgeOutOfRange, Range, Warning)]
      else []
  {
    GeneralRecorded(d, AverageAgeKey);
    AverageAgeText();
    if d.generalInformation.Some? {
      AverageAgeField(CheckGeneral(d.generalInformation.value));
    }
  }

  /** A field whose recorded list holds warnings only has no error. */
  lemma WarningsOnly(r: ValidationResult, field: string)
    requires forall k :: 0 <= k < |Recorded(r, field)| ==> Recorded(r, field)[k].severity == Warning
    ensures !HasFieldError(r, field)
  {
    Lookups(r, field);
  }

  /** The phone and age checks only ever warn. */
  lemma PhoneNeverError(d: SurveyData)
    ensures !HasFieldError(ValidateData(d), "generalInformation.phone")
  {
    PhoneRecorded(d);
    WarningsOnly(ValidateData(d), "generalInformation.phone");
  }

  lemma AverageAgeNeverError(d: SurveyData)
    ensures !HasFieldError(ValidateData(d), "generalInformation.averageAge")
  {
    AverageAgeRecorded(d);
    WarningsOnly(ValidateData(d), "generalInformation.averageAge");
  }
}
