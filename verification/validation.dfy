/**
 * The submission validator of hooks/useValidation.ts: the rules of
 * `validateData`, applied in source order to a partially filled survey,
 * and the result it builds from the findings (the severity partition,
 * `isValid`, and the findings grouped by field), with the three lookups
 * the form makes on that result.
 *
 * JavaScript compares `undefined` false against any number and `undefined`
 * arithmetic gives `NaN`, which is never greater than anything; the
 * comparison helpers below are false on a missing operand for that reason.
 */
module Validation {
  import opened Options
  import opened JsText
  import opened Numbers
  import opened Paths
  import opened Patterns
  import opened SeqUtil
  import opened SurveyTypes

  datatype Kind = Required | Format | Range | Logic

  datatype Severity = Error | Warning

  /** A `ValidationError` of the source; its `field` string is the text of
      `path`. */
  datatype Finding = Finding(path: Path, message: Message, kind: Kind, severity: Severity)

  function FieldText(f: Finding): string {
    Render(f.path)
  }

  /** `!s?.trim()`: missing, or white space only. */
  predicate Blank(s: Option<string>) {
    s.None? || Trim(s.value) == ""
  }

  /** A string that is present and non-empty, hence truthy. */
  predicate Filled(s: Option<string>) {
    s.Some? && |s.value| > 0
  }

  /** `x < c` where `x` may be `undefined`. */
  predicate Below(x: Option<real>, c: real) {
    x.Some? && x.value < c
  }

  /** `x > c` where `x` may be `undefined`. */
  predicate Above(x: Option<real>, c: real) {
    x.Some? && x.value > c
  }

  /** `a < b` where either may be `undefined`. */
  predicate Less(a: Option<real>, b: Option<real>) {
    a.Some? && b.Some? && a.value < b.value
  }

  // The messages of the findings.

  /** The message of a finding, one per rule; `MessageText` gives the
      words the form shows. */
  datatype Message
    = OrganizationNameMissing
    | EmailMissing
    | EmailMalformed
    | ContactPersonMissing
    | PhoneMalformed
    | EmployeeCountNegative
    | EmployeeCountZero
    | EligibleExceedsCount
    | AverageAgeOutOfRange
    | PlanNameMissing
    | CarrierMissing
    | PlanTypeMissing
    | EnrolledNegative
    | PremiumNotPositive
    | ContributionNegative
    | DeductibleNegative
    | DeductibleOrder
    | OutOfPocketOrder
    | CoinsuranceOutOfRange
    | CoverageOutOfRange
    | MatchFormulaMissing
    | ContributionMismatch(total: real, premium: real)

  function MessageText(m: Message): string {
    match m
    case OrganizationNameMissing => "Organization name is required"
    case EmailMissing => "Email is required"
    case EmailMalformed => "Please enter a valid email address"
    case ContactPersonMissing => "Contact person is required"
    case PhoneMalformed => "Please enter a valid phone number"
    case EmployeeCountNegative => "Employee count must be a positive number"
    case EmployeeCountZero => "Employee count should be greater than zero"
    case EligibleExceedsCount => "Eligible employees cannot exceed total employee count"
    case AverageAgeOutOfRange => "Average age must be between 18 and 100"
    case PlanNameMissing => "Plan name is required"
    case CarrierMissing => "Carrier name is required"
    case PlanTypeMissing => "Plan type is required"
    case EnrolledNegative => "Enrolled employees must be non-negative"
    case PremiumNotPositive => "Monthly premium must be greater than zero"
    case ContributionNegative => "Contributions cannot be negative"
    case DeductibleNegative => "Deductibles cannot be negative"
    case DeductibleOrder => "Family deductible should be greater than or equal to individual deductible"
    case OutOfPocketOrder => "Family out-of-pocket maximum should be >= individual maximum"
    case CoinsuranceOutOfRange => "Coinsurance percentage must be between 0 and 100"
    case CoverageOutOfRange => "Coverage percentage must be between 0 and 100"
    case MatchFormulaMissing => "Employer match formula is required when match is provided"
    case ContributionMismatch(total, premium) =>
      "Employer + Employee contribution (" + ToFixed2(total)
      + ") must equal monthly premium (" + ToFixed2(premium) + ")"
  }

  // The property names the findings are filed under.

  const GeneralInformationKey: Name := "generalInformation"
  const OrganizationNameKey: Name := "organizationName"
  const EmailKey: Name := "email"
  const ContactPersonKey: Name := "contactPerson"
  const PhoneKey: Name := "phone"
  const EmployeeCountKey: Name := "employeeCount"
  const EligibleEmployeesKey: Name := "eligibleEmployees"
  const AverageAgeKey: Name := "averageAge"
  const MedicalPlansKey: Name := "medicalPlans"
  const PlanNameKey: Name := "planName"
  const CarrierKey: Name := "carrier"
  const PlanTypeKey: Name := "planType"
  const EnrolledEmployeesKey: Name := "enrolledEmployees"
  const RateTiersKey: Name := "rateTiers"
  const MonthlyPremiumKey: Name := "monthlyPremium"
  const PlanDesignKey: Name := "planDesign"
  const DeductibleKey: Name := "deductible"
  const OutOfPocketMaxKey: Name := "outOfPocketMax"
  const CoinsuranceKey: Name := "coinsurance"
  const InNetworkKey: Name := "inNetwork"
  const DentalPlansKey: Name := "dentalPlans"
  const CoverageKey: Name := "coverage"
  const PreventiveKey: Name := "preventive"
  const BasicKey: Name := "basic"
  const MajorKey: Name := "major"
  const OrthodontiaKey: Name := "orthodontia"
  const RetirementKey: Name := "retirement"
  const Plan401kKey: Name := "plan401k"
  const EmployerMatchKey: Name := "employerMatch"
  const FormulaKey: Name := "formula"

  // Paths of the findings.

  /** The path of nested property names `names`. */
  function Keys(names: seq<Name>): (p: Path)
    ensures |p| == |names| && WellFormed(p)
  {
    seq(|names|, k requires 0 <= k < |names| => Key(names[k]))
  }

  const GeneralPrefix: Path := [Key(GeneralInformationKey)]

  function GeneralPath(name: Name): Path {
    GeneralPrefix + Keys([name])
  }

  /** The path of the `i`th medical plan. */
  function MedicalPath(i: nat): (p: Path)
    ensures |p| == 2 && WellFormed(p)
  {
    [Key(MedicalPlansKey), Index(i)]
  }

  /** The path of rate tier `j` below a plan. */
  function TierTail(j: nat): (p: Path)
    ensures |p| == 2 && WellFormed(p)
  {
    [Key(RateTiersKey), Index(j)]
  }

  function TierPath(i: nat, j: nat): Path {
    MedicalPath(i) + TierTail(j)
  }

  /** The path of the `i`th dental plan. */
  function DentalPath(i: nat): (p: Path)
    ensures |p| == 2 && WellFormed(p)
  {
    [Key(DentalPlansKey), Index(i)]
  }

  const RetirementPrefix: Path := [Key(RetirementKey)]

  const FormulaPath: Path := RetirementPrefix + Keys([Plan401kKey, EmployerMatchKey, FormulaKey])

  /** `p` is well formed and lies strictly below `prefix`. */
  predicate Under(p: Path, prefix: Path) {
    WellFormed(p) && |prefix| < |p| && p[..|prefix|] == prefix
  }

  /** Every finding of `fs` lies below `prefix`. */
  predicate AllUnder(fs: seq<Finding>, prefix: Path) {
    forall f :: f in fs ==> Under(f.path, prefix)
  }

  lemma AllUnderAppend(a: seq<Finding>, b: seq<Finding>, prefix: Path)
    requires AllUnder(a, prefix) && AllUnder(b, prefix)
    ensures AllUnder(a + b, prefix)
  {
  }

  /** One rule of the validator: the finding at `prefix + tail` when `c`
      holds, nothing otherwise. */
  function Rule(c: bool, prefix: Path, tail: Path, message: Message, kind: Kind, severity: Severity): (r: seq<Finding>)
    requires |tail| > 0 && WellFormed(prefix) && WellFormed(tail)
    ensures AllUnder(r, prefix)
  {
    assert (prefix + tail)[..|prefix|] == prefix;
    WellFormedConcat(prefix, tail);
    if c then [Finding(prefix + tail, message, kind, severity)] else []
  }

  // General information (hooks/useValidation.ts:46-128).

  function GeneralRule(c: bool, name: Name, message: Message, kind: Kind, severity: Severity): (r: seq<Finding>)
    ensures AllUnder(r, GeneralPrefix)
  {
    Rule(c, GeneralPrefix, Keys([name]), message, kind, severity)
  }

  /** What the general-information rules decide about one section, one
      flag per test the source makes. */
  datatype GeneralChecks = GeneralChecks(
    organizationBlank: bool,
    emailBlank: bool,
    emailMalformed: bool,
    contactBlank: bool,
    phoneMalformed: bool,
    countNegative: bool,
    countZero: bool,
    eligibleExceeds: bool,
    ageOutOfRange: bool)

  /** The tests, made as the source makes them: the e-mail pattern is only
      tried on a non-blank address, the phone pattern only on a non-empty
      number, and comparisons with a missing number are false. */
  function CheckGeneral(gi: GeneralInformation): GeneralChecks {
    GeneralChecks(
      organizationBlank := Blank(gi.organizationName),
      emailBlank := Blank(gi.email),
      emailMalformed := !Blank(gi.email) && !EmailShape(gi.email.value),
      contactBlank := Blank(gi.contactPerson),
      phoneMalformed := Filled(gi.phone) && !PhoneShape(gi.phone.value),
      countNegative := Below(gi.employeeCount, 0.0),
      countZero := gi.employeeCount == Some(0.0),
      eligibleExceeds := Less(gi.employeeCount, gi.eligibleEmployees),
      ageOutOfRange := Below(gi.averageAge, 18.0) || Above(gi.averageAge, 100.0))
  }

  /** The e-mail rule: required when blank, otherwise malformed or fine. */
  function EmailFindings(blank: bool, malformed: bool): (r: seq<Finding>)
    ensures AllUnder(r, GeneralPrefix)
  {
    if blank then GeneralRule(true, EmailKey, EmailMissing, Required, Error)
    else GeneralRule(malformed, EmailKey, EmailMalformed, Format, Error)
  }

  /** A negative count is an error, a zero count a warning. */
  function EmployeeCountFindings(negative: bool, zero: bool): (r: seq<Finding>)
    ensures AllUnder(r, GeneralPrefix)
  {
    if negative then GeneralRule(true, EmployeeCountKey, EmployeeCountNegative, Range, Error)
    else GeneralRule(zero, EmployeeCountKey, EmployeeCountZero, Range, Warning)
  }

  /** The findings the general-information rules file, in source order. */
  function GeneralFindingsOf(k: GeneralChecks): (r: seq<Finding>)
    ensures AllUnder(r, GeneralPrefix)
  {
    var organization := GeneralRule(k.organizationBlank, OrganizationNameKey, OrganizationNameMissing, Required, Error);
    var email := EmailFindings(k.emailBlank, k.emailMalformed);
    var contact := GeneralRule(k.contactBlank, ContactPersonKey, ContactPersonMissing, Required, Error);
    var phone := GeneralRule(k.phoneMalformed, PhoneKey, PhoneMalformed, Format, Warning);
    var count := EmployeeCountFindings(k.countNegative, k.countZero);
    var eligible := GeneralRule(k.eligibleExceeds, EligibleEmployeesKey, EligibleExceedsCount, Logic, Error);
    var age := GeneralRule(k.ageOutOfRange, AverageAgeKey, AverageAgeOutOfRange, Range, Warning);
    AllUnderAppend(organization, email, GeneralPrefix);
    AllUnderAppend(organization + email, contact, GeneralPrefix);
    AllUnderAppend(organization + email + contact, phone, GeneralPrefix);
    AllUnderAppend(organization + email + contact + phone, count, GeneralPrefix);
    AllUnderAppend(organization + email + contact + phone + count, eligible, GeneralPrefix);
    AllUnderAppend(organization + email + contact + phone + count + eligible, age, GeneralPrefix);
    organization + email + contact + phone + count + eligible + age
  }

  function GeneralFindings(gi: GeneralInformation): (r: seq<Finding>)
    ensures AllUnder(r, GeneralPrefix)
  {
    GeneralFindingsOf(CheckGeneral(gi))
  }

  // Medical plans (hooks/useValidation.ts:131-251).

  /** The three amounts of a tier are all present and the contributions
      miss the premium by more than a cent. A missing amount makes the
      source's difference `NaN`, which fails the `> 0.01` test. */
  predicate Mismatch(t: RateTier) {
    t.monthlyPremium.Some? && t.employerContribution.Some? && t.employeeContribution.Some?
    && var diff := t.employerContribution.value + t.employeeContribution.value - t.monthlyPremium.value;
    diff > 0.01 || diff < -0.01
  }

  function MismatchMessage(t: RateTier): Message
    requires Mismatch(t)
  {
    ContributionMismatch(t.employerContribution.value + t.employeeContribution.value, t.monthlyPremium.value)
  }

  /** What the tier rules decide about one tier: the premium is given and
      not positive, the mismatch message when the contributions miss the
      premium, and whether either contribution is negative. */
  datatype TierChecks = TierChecks(premiumNotPositive: bool, mismatch: Option<Message>, contributionNegative: bool)

  function CheckTier(t: RateTier): TierChecks {
    TierChecks(
      Below(t.monthlyPremium, 0.0) || t.monthlyPremium == Some(0.0),
      if Mismatch(t) then Some(MismatchMessage(t)) else None,
      Below(t.employerContribution, 0.0) || Below(t.employeeContribution, 0.0))
  }

  /** The findings of tier `j` of plan `i`, given what its rules decided. */
  function TierFindingsOf(i: nat, j: nat, k: TierChecks): (r: seq<Finding>)
    ensures AllUnder(r, MedicalPath(i))
  {
    var tail := TierTail(j);
    WellFormedConcat(tail, Keys([MonthlyPremiumKey]));
    var premium := Rule(k.premiumNotPositive, MedicalPath(i), tail + Keys([MonthlyPremiumKey]), PremiumNotPositive, Range, Error);
    var mismatch := if k.mismatch.Some? then Rule(true, MedicalPath(i), tail, k.mismatch.value, Logic, Error) else [];
    var negative := Rule(k.contributionNegative, MedicalPath(i), tail, ContributionNegative, Range, Error);
    AllUnderAppend(premium, mismatch, MedicalPath(i));
    AllUnderAppend(premium + mismatch, negative, MedicalPath(i));
    premium + mismatch + negative
  }

  function TierFindings(i: nat, j: nat, t: RateTier): (r: seq<Finding>)
    ensures AllUnder(r, MedicalPath(i))
  {
    TierFindingsOf(i, j, CheckTier(t))
  }

  function TiersFindings(i: nat, tiers: seq<RateTier>): (r: seq<Finding>)
    ensures AllUnder(r, MedicalPath(i))
  {
    Flat(seq(|tiers|, j requires 0 <= j < |tiers| => TierFindings(i, j, tiers[j])))
  }

  /** A negative deductible is an error; a family deductible below the
      individual one only a warning. */
  function DeductibleFindings(i: nat, d: Limits): (r: seq<Finding>)
    ensures AllUnder(r, MedicalPath(i))
  {
    var negative := Rule(Below(d.individual, 0.0) || Below(d.family, 0.0),
      MedicalPath(i), Keys([PlanDesignKey, DeductibleKey]), DeductibleNegative, Range, Error);
    var order := Rule(Less(d.family, d.individual), MedicalPath(i), Keys([PlanDesignKey, DeductibleKey]),
      DeductibleOrder, Logic, Warning);
    AllUnderAppend(negative, order, MedicalPath(i));
    negative + order
  }

  function OutOfPocketFindings(i: nat, m: Limits): (r: seq<Finding>)
    ensures AllUnder(r, MedicalPath(i))
  {
    Rule(Less(m.family, m.individual), MedicalPath(i), Keys([PlanDesignKey, OutOfPocketMaxKey]),
      OutOfPocketOrder, Logic, Warning)
  }

  function CoinsuranceFindings(i: nat, c: Coinsurance): (r: seq<Finding>)
    ensures AllUnder(r, MedicalPath(i))
  {
    Rule(Below(c.inNetwork, 0.0) || Above(c.inNetwork, 100.0), MedicalPath(i),
      Keys([PlanDesignKey, CoinsuranceKey, InNetworkKey]), CoinsuranceOutOfRange, Range, Error)
  }

  /** The plan-design rules; each part is checked only when present. */
  function DesignFindings(i: nat, pd: MedicalPlanDesign): (r: seq<Finding>)
    ensures AllUnder(r, MedicalPath(i))
  {
    var deductible := if pd.deductible.None? then [] else DeductibleFindings(i, pd.deductible.value);
    var outOfPocket := if pd.outOfPocketMax.None? then [] else OutOfPocketFindings(i, pd.outOfPocketMax.value);
    var coinsurance := if pd.coinsurance.None? then [] else CoinsuranceFindings(i, pd.coinsurance.value);
    AllUnderAppend(deductible, outOfPocket, MedicalPath(i));
    AllUnderAppend(deductible + outOfPocket, coinsurance, MedicalPath(i));
    deductible + outOfPocket + coinsurance
  }

  function MedicalPlanFindings(i: nat, plan: MedicalPlan): (r: seq<Finding>)
    ensures AllUnder(r, MedicalPath(i))
  {
    var name := Rule(Blank(plan.planName), MedicalPath(i), Keys([PlanNameKey]), PlanNameMissing, Required, Error);
    var carrier := Rule(Blank(plan.carrier), MedicalPath(i), Keys([CarrierKey]), CarrierMissing, Required, Error);
    var planType := Rule(!Filled(plan.planType), MedicalPath(i), Keys([PlanTypeKey]), PlanTypeMissing, Required, Error);
    var enrolled := Rule(Below(plan.enrolledEmployees, 0.0), MedicalPath(i), Keys([EnrolledEmployeesKey]),
      EnrolledNegative, Range, Error);
    var tiers := if plan.rateTiers.None? then [] else TiersFindings(i, plan.rateTiers.value);
    var design := if plan.planDesign.None? then [] else DesignFindings(i, plan.planDesign.value);
    AllUnderAppend(name, carrier, MedicalPath(i));
    AllUnderAppend(name + carrier, planType, MedicalPath(i));
    AllUnderAppend(name + carrier + planType, enrolled, MedicalPath(i));
    AllUnderAppend(name + carrier + planType + enrolled, tiers, MedicalPath(i));
    AllUnderAppend(name + carrier + planType + enrolled + tiers, design, MedicalPath(i));
    name + carrier + planType + enrolled + tiers + design
  }

  const MedicalPrefix: Path := [Key(MedicalPlansKey)]

  function MedicalFindings(plans: seq<MedicalPlan>): (r: seq<Finding>)
    ensures AllUnder(r, MedicalPrefix)
  {
    var blocks := seq(|plans|, i requires 0 <= i < |plans| => MedicalPlanFindings(i, plans[i]));
    assert forall i :: 0 <= i < |plans| ==> MedicalPath(i)[..1] == MedicalPrefix;
    Flat(blocks)
  }

  // Dental plans (hooks/useValidation.ts:254-290).

  const CoverageNames: seq<Name> := [PreventiveKey, BasicKey, MajorKey, OrthodontiaKey]

  /** The `k`th of the four coverage percentages, in the order of
      `CoverageNames`. */
  function CoveragePercent(c: DentalCoverage, k: nat): Option<real>
    requires k < 4
  {
    [c.preventive, c.basic, c.major, c.orthodontia][k]
  }

  /** A coverage percentage given and outside [0, 100]. */
  function CoverageRule(i: nat, c: DentalCoverage, k: nat): (r: seq<Finding>)
    requires k < 4
    ensures AllUnder(r, DentalPath(i))
  {
    Rule(Below(CoveragePercent(c, k), 0.0) || Above(CoveragePercent(c, k), 100.0),
      DentalPath(i), Keys([PlanDesignKey, CoverageKey, CoverageNames[k]]), CoverageOutOfRange, Range, Error)
  }

  /** The four coverage percentages, each checked against [0, 100]. */
  function CoverageFindings(i: nat, c: DentalCoverage): (r: seq<Finding>)
    ensures AllUnder(r, DentalPath(i))
  {
    Flat(seq(4, k requires 0 <= k < 4 => CoverageRule(i, c, k)))
  }

  function DentalPlanFindings(i: nat, plan: DentalPlan): (r: seq<Finding>)
    ensures AllUnder(r, DentalPath(i))
  {
    var name := Rule(Blank(plan.planName), DentalPath(i), Keys([PlanNameKey]), PlanNameMissing, Required, Error);
    var carrier := Rule(Blank(plan.carrier), DentalPath(i), Keys([CarrierKey]), CarrierMissing, Required, Error);
    var coverage :=
      if plan.planDesign.None? || plan.planDesign.value.coverage.None? then []
      else CoverageFindings(i, plan.planDesign.value.coverage.value);
    AllUnderAppend(name, carrier, DentalPath(i));
    AllUnderAppend(name + carrier, coverage, DentalPath(i));
    name + carrier + coverage
  }

  const DentalPrefix: Path := [Key(DentalPlansKey)]

  function DentalFindings(plans: seq<DentalPlan>): (r: seq<Finding>)
    ensures AllUnder(r, DentalPrefix)
  {
    var blocks := seq(|plans|, i requires 0 <= i < |plans| => DentalPlanFindings(i, plans[i]));
    assert forall i :: 0 <= i < |plans| ==> DentalPath(i)[..1] == DentalPrefix;
    Flat(blocks)
  }

  // Retirement (hooks/useValidation.ts:293-306).

  /** The 401(k) is offered with an employer match, but the match formula is
      missing or blank. */
  predicate FormulaMissing(ret: Retirement) {
    ret.plan401k.Some? && ret.plan401k.value.offered == Some(true)
    && ret.plan401k.value.employerMatch.Some?
    && ret.plan401k.value.employerMatch.value.provided == Some(true)
    && Blank(ret.plan401k.value.employerMatch.value.formula)
  }

  function RetirementFindings(ret: Retirement): (r: seq<Finding>)
    ensures AllUnder(r, RetirementPrefix)
  {
    Rule(FormulaMissing(ret), RetirementPrefix, Keys([Plan401kKey, EmployerMatchKey, FormulaKey]),
      MatchFormulaMissing, Required, Error)
  }

  /** Every finding of `validateData`, in the order the rules run. */
  function AllFindings(d: SurveyData): seq<Finding> {
    GeneralPart(d) + MedicalPart(d) + DentalPart(d) + RetirementPart(d)
  }

  /** The findings of each section the validator reads, none when the
      section is absent. */
  function GeneralPart(d: SurveyData): (r: seq<Finding>)
    ensures AllUnder(r, GeneralPrefix)
  {
    if d.generalInformation.None? then [] else GeneralFindings(d.generalInformation.value)
  }

  function MedicalPart(d: SurveyData): (r: seq<Finding>)
    ensures AllUnder(r, MedicalPrefix)
  {
    if d.medicalPlans.None? then [] else MedicalFindings(d.medicalPlans.value)
  }

  function DentalPart(d: SurveyData): (r: seq<Finding>)
    ensures AllUnder(r, DentalPrefix)
  {
    if d.dentalPlans.None? then [] else DentalFindings(d.dentalPlans.value)
  }

  function RetirementPart(d: SurveyData): (r: seq<Finding>)
    ensures AllUnder(r, RetirementPrefix)
  {
    if d.retirement.None? then [] else RetirementFindings(d.retirement.value)
  }

  // The result (hooks/useValidation.ts:308-325).

  datatype ValidationResult = ValidationResult(
    isValid: bool,
    errors: seq<Finding>,
    warnings: seq<Finding>,
    fieldErrors: map<string, seq<Finding>>)

  predicate IsError(f: Finding) { f.severity == Error }

  predicate IsWarning(f: Finding) { f.severity == Warning }

  /** The findings of `fs` whose field text is `field`, in order. */
  function FieldFindings(fs: seq<Finding>, field: string): seq<Finding> {
    Filter((f: Finding) => FieldText(f) == field, fs)
  }

  /** The findings of `fs` filed at `p`, in order. */
  function PathFindings(fs: seq<Finding>, p: Path): seq<Finding> {
    Filter((f: Finding) => f.path == p, fs)
  }

  /** The `fieldErrors` record: each finding, in turn, appended to the list
      kept under its field text. A field has a list exactly when some
      finding is filed under it, and the list holds those findings in the
      order they were produced. */
  function GroupByField(fs: seq<Finding>): (m: map<string, seq<Finding>>)
    ensures forall k :: k in m <==> |FieldFindings(fs, k)| > 0
    ensures forall k :: k in m ==> m[k] == FieldFindings(fs, k)
    decreases |fs|
  {
    if |fs| == 0 then map[]
    else
      var init := fs[..|fs| - 1];
      var f := fs[|fs| - 1];
      var m := GroupByField(init);
      var k := FieldText(f);
      assert fs == init + [f];
      GroupStep(init, f, m);
      m[k := (if k in m then m[k] else []) + [f]]
  }

  /** Appending one finding to the list under its field text keeps the
      record in step with the findings. */
  lemma GroupStep(init: seq<Finding>, f: Finding, m: map<string, seq<Finding>>)
    requires forall k :: k in m <==> |FieldFindings(init, k)| > 0
    requires forall k :: k in m ==> m[k] == FieldFindings(init, k)
    ensures var m' := m[FieldText(f) := (if FieldText(f) in m then m[FieldText(f)] else []) + [f]];
      (forall k :: k in m' <==> |FieldFindings(init + [f], k)| > 0)
      && (forall k :: k in m' ==> m'[k] == FieldFindings(init + [f], k))
  {
    FieldFindingsSnoc(init, f);
  }

  lemma FieldFindingsSnoc(init: seq<Finding>, f: Finding)
    ensures forall k :: FieldFindings(init + [f], k) == FieldFindings(init, k) + (if FieldText(f) == k then [f] else [])
  {
    forall k ensures FieldFindings(init + [f], k) == FieldFindings(init, k) + (if FieldText(f) == k then [f] else []) {
      FilterConcat((g: Finding) => FieldText(g) == k, init, [f]);
    }
  }

  function Summarize(fs: seq<Finding>): ValidationResult {
    var errors := Filter(IsError, fs);
    ValidationResult(|errors| == 0, errors, Filter(IsWarning, fs), GroupByField(fs))
  }

  /** `validateData`. */
  function ValidateData(d: SurveyData): ValidationResult {
    Summarize(AllFindings(d))
  }

  /** `getFieldError`: the first finding recorded for a field. */
  function GetFieldError(r: ValidationResult, field: string): Option<Finding> {
    if field in r.fieldErrors && |r.fieldErrors[field]| > 0 then Some(r.fieldErrors[field][0]) else None
  }

  predicate SomeWithSeverity(fs: seq<Finding>, s: Severity) {
    exists k :: 0 <= k < |fs| && fs[k].severity == s
  }

  /** `hasFieldError`: some finding recorded for the field is an error. */
  predicate HasFieldError(r: ValidationResult, field: string) {
    field in r.fieldErrors && SomeWithSeverity(r.fieldErrors[field], Error)
  }

  /** `hasFieldWarning`: some finding recorded for the field is a warning. */
  predicate HasFieldWarning(r: ValidationResult, field: string) {
    field in r.fieldErrors && SomeWithSeverity(r.fieldErrors[field], Warning)
  }
}
