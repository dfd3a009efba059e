/**
 * What the dental and retirement rules of hooks/useValidation.ts record,
 * field by field, and the sections the validator never reads.
 */
module DentalFields {
  import opened Options
  import opened Paths
  import opened SeqUtil
  import opened SurveyTypes
  import opened Validation
  import opened ValidationProps
  import opened PlanProps

  function CoveragePath(i: nat, k: nat): Path
    requires k < 4
  {
    DentalPath(i) + Keys([PlanDesignKey, CoverageKey, CoverageNames[k]])
  }

  lemma CoverageNamesDistinct(k: nat, m: nat)
    requires k < 4 && m < 4 && k != m
    ensures CoverageNames[k] != CoverageNames[m]
  {
  }

  /** The rule for coverage percentage `m` files at the path of
      percentage `k` only when `m` is `k`. */
  lemma CoverageRuleAt(i: nat, c: DentalCoverage, m: nat, k: nat)
    requires m < 4 && k < 4
    ensures PathFindings(CoverageRule(i, c, m), CoveragePath(i, k)) == if m == k then CoverageRule(i, c, m) else []
  {
    RuleAt(Below(CoveragePercent(c, m), 0.0) || Above(CoveragePercent(c, m), 100.0),
      DentalPath(i), Keys([PlanDesignKey, CoverageKey, CoverageNames[m]]), CoverageOutOfRange, Range, Error,
      CoveragePath(i, k));
    if m != k {
      CoverageNamesDistinct(k, m);
      assert CoveragePath(i, m)[4] != CoveragePath(i, k)[4];
    }
  }

  /** Each coverage percentage files at its own path only. */
  lemma CoverageAt(i: nat, c: DentalCoverage, k: nat)
    requires k < 4
    ensures PathFindings(CoverageFindings(i, c), CoveragePath(i, k)) ==
      if CoveragePercent(c, k).Some? && (CoveragePercent(c, k).value < 0.0 || CoveragePercent(c, k).value > 100.0)
      then [Finding(CoveragePath(i, k), CoverageOutOfRange, Range, Error)] else []
  {
    var blocks := seq(4, m requires 0 <= m < 4 => CoverageRule(i, c, m));
    forall m | 0 <= m < 4 ensures PathFindings(blocks[m], CoveragePath(i, k)) == if m == k then blocks[m] else [] {
      CoverageRuleAt(i, c, m, k);
    }
    FlatAt(blocks, k, CoveragePath(i, k));
    CoverageRuleAt(i, c, k, k);
  }

  function DentalDesignPath(i: nat): Path {
    DentalPath(i) + Keys([PlanDesignKey])
  }

  /** The coverage findings of dental plan `i` lie within
      `dentalPlans[i].planDesign`. */
  lemma CoverageWithin(i: nat, c: DentalCoverage)
    ensures AllWithin(CoverageFindings(i, c), DentalDesignPath(i))
  {
    var blocks := seq(4, m requires 0 <= m < 4 => CoverageRule(i, c, m));
    forall f | f in CoverageFindings(i, c) ensures Within(f.path, DentalDesignPath(i)) {
      var m :| 0 <= m < |blocks| && f in blocks[m];
      RuleWithin(Below(CoveragePercent(c, m), 0.0) || Above(CoveragePercent(c, m), 100.0),
        DentalPath(i), Keys([PlanDesignKey, CoverageKey, CoverageNames[m]]), CoverageOutOfRange, Range, Error,
        Keys([PlanDesignKey]));
    }
  }

  /** A dental plan's findings at `q`, rule by rule. */
  lemma DentalSplit(i: nat, plan: DentalPlan, q: Path)
    ensures PathFindings(DentalPlanFindings(i, plan), q) ==
      PathFindings(Rule(Blank(plan.planName), DentalPath(i), Keys([PlanNameKey]), PlanNameMissing, Required, Error), q)
      + PathFindings(Rule(Blank(plan.carrier), DentalPath(i), Keys([CarrierKey]), CarrierMissing, Required, Error), q)
      + PathFindings(if plan.planDesign.None? || plan.planDesign.value.coverage.None? then []
          else CoverageFindings(i, plan.planDesign.value.coverage.value), q)
  {
    var name := Rule(Blank(plan.planName), DentalPath(i), Keys([PlanNameKey]), PlanNameMissing, Required, Error);
    var carrier := Rule(Blank(plan.carrier), DentalPath(i), Keys([CarrierKey]), CarrierMissing, Required, Error);
    var coverage :=
      if plan.planDesign.None? || plan.planDesign.value.coverage.None? then []
      else CoverageFindings(i, plan.planDesign.value.coverage.value);
    assert DentalPlanFindings(i, plan) == name + carrier + coverage;
    PathFindingsConcat(name + carrier, coverage, q);
    PathFindingsConcat(name, carrier, q);
  }

  /** The coverage block of a dental plan is silent at its name and
      carrier. */
  lemma CoverageAway(i: nat, plan: DentalPlan, name: Name)
    requires name != PlanDesignKey
    ensures PathFindings(if plan.planDesign.None? || plan.planDesign.value.coverage.None? then []
      else CoverageFindings(i, plan.planDesign.value.coverage.value), DentalPath(i) + Keys([name])) == []
  {
    if plan.planDesign.Some? && plan.planDesign.value.coverage.Some? {
      var q := DentalPath(i) + Keys([name]);
      CoverageWithin(i, plan.planDesign.value.coverage.value);
      assert q[..3][2] == Key(name);
      assert DentalDesignPath(i)[2] == Key(PlanDesignKey);
      Away(CoverageFindings(i, plan.planDesign.value.coverage.value), DentalDesignPath(i), q);
    }
  }

  /** A rule at a dental plan's one-key field files only at that field. */
  lemma DentalRuleAt(i: nat, c: bool, name: Name, message: Message, kind: Kind, severity: Severity, other: Name)
    ensures PathFindings(Rule(c, DentalPath(i), Keys([name]), message, kind, severity), DentalPath(i) + Keys([other])) ==
      if name == other then Rule(c, DentalPath(i), Keys([name]), message, kind, severity) else []
  {
    RuleAt(c, DentalPath(i), Keys([name]), message, kind, severity, DentalPath(i) + Keys([other]));
    if DentalPath(i) + Keys([name]) == DentalPath(i) + Keys([other]) {
      assert (DentalPath(i) + Keys([name]))[2] == (DentalPath(i) + Keys([other]))[2];
    }
  }

  /** A missing or blank dental plan name is one required error. */
  lemma DentalPlanNameAt(i: nat, plan: DentalPlan)
    ensures PathFindings(DentalPlanFindings(i, plan), DentalPath(i) + Keys([PlanNameKey])) ==
      if Blank(plan.planName) then [Finding(DentalPath(i) + Keys([PlanNameKey]), PlanNameMissing, Required, Error)] else []
  {
    var q := DentalPath(i) + Keys([PlanNameKey]);
    DentalSplit(i, plan, q);
    CoverageAway(i, plan, PlanNameKey);
    DentalRuleAt(i, Blank(plan.planName), PlanNameKey, PlanNameMissing, Required, Error, PlanNameKey);
    DentalRuleAt(i, Blank(plan.carrier), CarrierKey, CarrierMissing, Required, Error, PlanNameKey);
    FirstOfThree(
      PathFindings(Rule(Blank(plan.planName), DentalPath(i), Keys([PlanNameKey]), PlanNameMissing, Required, Error), q),
      PathFindings(Rule(Blank(plan.carrier), DentalPath(i), Keys([CarrierKey]), CarrierMissing, Required, Error), q),
      PathFindings(if plan.planDesign.None? || plan.planDesign.value.coverage.None? then []
        else CoverageFindings(i, plan.planDesign.value.coverage.value), q));
  }

  /** A missing or blank dental carrier is one required error. */
  lemma DentalCarrierAt(i: nat, plan: DentalPlan)
    ensures PathFindings(DentalPlanFindings(i, plan), DentalPath(i) + Keys([CarrierKey])) ==
      if Blank(plan.carrier) then [Finding(DentalPath(i) + Keys([CarrierKey]), CarrierMissing, Required, Error)] else []
  {
    var q := DentalPath(i) + Keys([CarrierKey]);
    DentalSplit(i, plan, q);
    CoverageAway(i, plan, CarrierKey);
    DentalRuleAt(i, Blank(plan.planName), PlanNameKey, PlanNameMissing, Required, Error, CarrierKey);
    DentalRuleAt(i, Blank(plan.carrier), CarrierKey, CarrierMissing, Required, Error, CarrierKey);
    SecondOfThree(
      PathFindings(Rule(Blank(plan.planName), DentalPath(i), Keys([PlanNameKey]), PlanNameMissing, Required, Error), q),
      PathFindings(Rule(Blank(plan.carrier), DentalPath(i), Keys([CarrierKey]), CarrierMissing, Required, Error), q),
      PathFindings(if plan.planDesign.None? || plan.planDesign.value.coverage.None? then []
        else CoverageFindings(i, plan.planDesign.value.coverage.value), q));
  }

  /** The coverage of a dental plan, if its design gives one. */
  function CoverageOf(plan: DentalPlan): Option<DentalCoverage> {
    if plan.planDesign.Some? then plan.planDesign.value.coverage else None
  }

  /** At a coverage percentage, a dental plan files what its coverage rule
      files. */
  lemma DentalCoverageAt(i: nat, plan: DentalPlan, k: nat)
    requires k < 4
    ensures PathFindings(DentalPlanFindings(i, plan), CoveragePath(i, k)) ==
      if CoverageOf(plan).Some? && CoveragePercent(CoverageOf(plan).value, k).Some?
        && (CoveragePercent(CoverageOf(plan).value, k).value < 0.0 || CoveragePercent(CoverageOf(plan).value, k).value > 100.0)
      then [Finding(CoveragePath(i, k), CoverageOutOfRange, Range, Error)] else []
  {
    var q := CoveragePath(i, k);
    DentalSplit(i, plan, q);
    RuleAt(Blank(plan.planName), DentalPath(i), Keys([PlanNameKey]), PlanNameMissing, Required, Error, q);
    RuleAt(Blank(plan.carrier), DentalPath(i), Keys([CarrierKey]), CarrierMissing, Required, Error, q);
    assert |q| == 5;
    var coverage := if plan.planDesign.None? || plan.planDesign.value.coverage.None? then []
      else CoverageFindings(i, plan.planDesign.value.coverage.value);
    ThirdOfThree(
      PathFindings(Rule(Blank(plan.planName), DentalPath(i), Keys([PlanNameKey]), PlanNameMissing, Required, Error), q),
      PathFindings(Rule(Blank(plan.carrier), DentalPath(i), Keys([CarrierKey]), CarrierMissing, Required, Error), q),
      PathFindings(coverage, q));
    if CoverageOf(plan).Some? {
      CoverageAt(i, CoverageOf(plan).value, k);
    }
  }

  // All dental plans (hooks/useValidation.ts:254-290).

  /** Among all dental plans, only plan `k` files at or below its path. */
  lemma DentalAt(plans: seq<DentalPlan>, k: nat, q: Path)
    requires Within(q, DentalPath(k))
    ensures PathFindings(DentalFindings(plans), q) ==
      if k < |plans| then PathFindings(DentalPlanFindings(k, plans[k]), q) else []
  {
    var blocks := seq(|plans|, i requires 0 <= i < |plans| => DentalPlanFindings(i, plans[i]));
    forall i | 0 <= i < |blocks| && i != k ensures PathFindings(blocks[i], q) == [] {
      UnderIsWithin(blocks[i], DentalPath(i));
      assert q[..2][1] == Index(k);
      Away(blocks[i], DentalPath(i), q);
    }
    if k < |plans| {
      FlatAt(blocks, k, q);
    } else {
      FlatNone(blocks, q);
    }
  }

  /** Below `dentalPlans`, only the dental section files anything. */
  lemma DentalSection(d: SurveyData, q: Path)
    requires |q| > 0 && q[0] == Key(DentalPlansKey)
    ensures PathFindings(AllFindings(d), q) == PathFindings(DentalPart(d), q)
  {
    SectionKeysDistinct();
    GeneralAway(d, q);
    MedicalAway(d, q);
    RetirementAway(d, q);
    SectionSplit(d, q);
  }

  /** The `i`th dental plan of the survey, if there is one. */
  function DentalPlanOf(d: SurveyData, i: nat): Option<DentalPlan> {
    if d.dentalPlans.Some? && i < |d.dentalPlans.value| then Some(d.dentalPlans.value[i]) else None
  }

  lemma DentalRecorded(d: SurveyData, k: nat, q: Path)
    requires WellFormed(q) && Within(q, DentalPath(k))
    ensures Recorded(ValidateData(d), Render(q)) ==
      if DentalPlanOf(d, k).None? then [] else PathFindings(DentalPlanFindings(k, DentalPlanOf(d, k).value), q)
  {
    RecordedAt(d, q);
    assert q[0] == q[..2][0] == Key(DentalPlansKey);
    DentalSection(d, q);
    if d.dentalPlans.Some? {
      DentalAt(d.dentalPlans.value, k, q);
    }
  }

  /** `dentalPlans[i].planName` holds one required error exactly when dental
      plan `i` exists and its name is missing or blank. */
  lemma DentalPlanNameRecorded(d: SurveyData, i: nat)
    ensures Recorded(ValidateData(d), Render(DentalPath(i) + Keys([PlanNameKey]))) ==
      if DentalPlanOf(d, i).Some? && Blank(DentalPlanOf(d, i).value.planName)
      then [Finding(DentalPath(i) + Keys([PlanNameKey]), PlanNameMissing, Required, Error)] else []
  {
    var q := DentalPath(i) + Keys([PlanNameKey]);
    WellFormedConcat(DentalPath(i), Keys([PlanNameKey]));
    assert q[..2] == DentalPath(i);
    DentalRecorded(d, i, q);
    if DentalPlanOf(d, i).Some? {
      DentalPlanNameAt(i, DentalPlanOf(d, i).value);
    }
  }

  /** `dentalPlans[i].carrier` holds one required error exactly when dental
      plan `i` exists and its carrier is missing or blank. */
  lemma DentalCarrierRecorded(d: SurveyData, i: nat)
    ensures Recorded(ValidateData(d), Render(DentalPath(i) + Keys([CarrierKey]))) ==
      if DentalPlanOf(d, i).Some? && Blank(DentalPlanOf(d, i).value.carrier)
      then [Finding(DentalPath(i) + Keys([CarrierKey]), CarrierMissing, Required, Error)] else []
  {
    var q := DentalPath(i) + Keys([CarrierKey]);
    WellFormedConcat(DentalPath(i), Keys([CarrierKey]));
    assert q[..2] == DentalPath(i);
    DentalRecorded(d, i, q);
    if DentalPlanOf(d, i).Some? {
      DentalCarrierAt(i, DentalPlanOf(d, i).value);
    }
  }

  /** `dentalPlans[i].planDesign.coverage.<name>` holds one range error
      exactly when that percentage is given and lies outside [0, 100]. */
  lemma CoverageRecorded(d: SurveyData, i: nat, k: nat)
    requires k < 4
    ensures Recorded(ValidateData(d), Render(CoveragePath(i, k))) ==
      if DentalPlanOf(d, i).Some? && CoverageOf(DentalPlanOf(d, i).value).Some?
        && CoveragePercent(CoverageOf(DentalPlanOf(d, i).value).value, k).Some?
        && (CoveragePercent(CoverageOf(DentalPlanOf(d, i).value).value, k).value < 0.0
            || CoveragePercent(CoverageOf(DentalPlanOf(d, i).value).value, k).value > 100.0)
      then [Finding(CoveragePath(i, k), CoverageOutOfRange, Range, Error)] else []
  {
    var q := CoveragePath(i, k);
    WellFormedConcat(DentalPath(i), Keys([PlanDesignKey, CoverageKey, CoverageNames[k]]));
    assert q[..2] == DentalPath(i);
    DentalRecorded(d, i, q);
    if DentalPlanOf(d, i).Some? {
      DentalCoverageAt(i, DentalPlanOf(d, i).value, k);
    }
  }

  // Retirement (hooks/useValidation.ts:293-306).

  /** Below `retirement`, only the retirement section files anything. */
  lemma RetirementSection(d: SurveyData, q: Path)
    requires |q| > 0 && q[0] == Key(RetirementKey)
    ensures PathFindings(AllFindings(d), q) ==
      if d.retirement.None? then [] else PathFindings(RetirementFindings(d.retirement.value), q)
  {
    SectionKeysDistinct();
    GeneralAway(d, q);
    MedicalAway(d, q);
    DentalAway(d, q);
    SectionSplit(d, q);
  }

  /** `retirement.plan401k.employerMatch.formula` holds one required error
      exactly when a 401(k) is offered with an employer match whose formula
      is missing or blank. */
  lemma FormulaRecorded(d: SurveyData)
    ensures Recorded(ValidateData(d), Render(FormulaPath)) ==
      if d.retirement.Some? && d.retirement.value.plan401k.Some?
        && d.retirement.value.plan401k.value.offered == Some(true)
        && d.retirement.value.plan401k.value.employerMatch.Some?
        && d.retirement.value.plan401k.value.employerMatch.value.provided == Some(true)
        && Blank(d.retirement.value.plan401k.value.employerMatch.value.formula)
      then [Finding(FormulaPath, MatchFormulaMissing, Required, Error)] else []
  {
    RecordedAt(d, FormulaPath);
    RetirementSection(d, FormulaPath);
  }

  // The sections no rule reads (hooks/useValidation.ts:45-306).

  /** Only the general information, the medical and dental plans and the
      retirement section are read: surveys that agree on those validate
      alike, whatever their vision, life and disability, time-off,
      strategy, voluntary-benefit and best-practice sections hold. */
  lemma UnreadSections(d: SurveyData, e: SurveyData)
    requires d.generalInformation == e.generalInformation && d.medicalPlans == e.medicalPlans
    requires d.dentalPlans == e.dentalPlans && d.retirement == e.retirement
    ensures ValidateData(d) == ValidateData(e)
  {
  }

  /** The empty survey `{}` is valid, with no finding at all. */
  lemma EmptySurveyValid()
    ensures ValidateData(EmptySurvey) == ValidationResult(true, [], [], map[])
  {
    assert AllFindings(EmptySurvey) == [];
  }

  /** A survey is valid exactly when none of its findings is an error. */
  lemma SurveyValidIff(d: SurveyData)
    ensures ValidateData(d).isValid <==> forall f :: f in AllFindings(d) ==> f.severity != Error
  {
    ValidIffNoError(AllFindings(d));
  }
}
