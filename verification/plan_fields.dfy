/**
 * What the form sees at each medical-plan field: the list that
 * `validateData` of hooks/useValidation.ts records under the field's text,
 * stated from the survey itself.
 */
module PlanFields {
  import opened Options
  import opened Paths
  import opened SeqUtil
  import opened SurveyTypes
  import opened Validation
  import opened ValidationProps
  import opened PlanProps

  /** Among all medical plans, only plan `k` files at or below its path. */
  lemma MedicalAt(plans: seq<MedicalPlan>, k: nat, q: Path)
    requires Within(q, MedicalPath(k))
    ensures PathFindings(MedicalFindings(plans), q) ==
      if k < |plans| then PathFindings(MedicalPlanFindings(k, plans[k]), q) else []
  {
    var blocks := seq(|plans|, i requires 0 <= i < |plans| => MedicalPlanFindings(i, plans[i]));
    forall i | 0 <= i < |blocks| && i != k ensures PathFindings(blocks[i], q) == [] {
      UnderIsWithin(blocks[i], MedicalPath(i));
      assert q[..2][1] == Index(k);
      Away(blocks[i], MedicalPath(i), q);
    }
    if k < |plans| {
      FlatAt(blocks, k, q);
    } else {
      FlatNone(blocks, q);
    }
  }

  /** Below `medicalPlans`, only the medical section files anything. */
  lemma MedicalSection(d: SurveyData, q: Path)
    requires |q| > 0 && q[0] == Key(MedicalPlansKey)
    ensures PathFindings(AllFindings(d), q) ==
      if d.medicalPlans.None? then [] else PathFindings(MedicalFindings(d.medicalPlans.value), q)
  {
    SectionKeysDistinct();
    GeneralAway(d, q);
    DentalAway(d, q);
    RetirementAway(d, q);
    SectionSplit(d, q);
  }

  /** The `i`th medical plan of the survey, if there is one. */
  function MedicalPlanOf(d: SurveyData, i: nat): Option<MedicalPlan> {
    if d.medicalPlans.Some? && i < |d.medicalPlans.value| then Some(d.medicalPlans.value[i]) else None
  }

  /** The list recorded under a field of plan `k` is what that plan files
      there. */
  lemma MedicalRecorded(d: SurveyData, k: nat, q: Path)
    requires WellFormed(q) && Within(q, MedicalPath(k))
    ensures Recorded(ValidateData(d), Render(q)) ==
      if MedicalPlanOf(d, k).None? then [] else PathFindings(MedicalPlanFindings(k, MedicalPlanOf(d, k).value), q)
  {
    RecordedAt(d, q);
    assert q[0] == q[..2][0] == Key(MedicalPlansKey);
    MedicalSection(d, q);
    if d.medicalPlans.Some? {
      MedicalAt(d.medicalPlans.value, k, q);
    }
  }

  /** `medicalPlans[i].planName` holds one required error exactly when plan
      `i` exists and its name is missing or blank. */
  lemma PlanNameRecorded(d: SurveyData, i: nat)
    ensures Recorded(ValidateData(d), Render(MedicalPath(i) + Keys([PlanNameKey]))) ==
      if MedicalPlanOf(d, i).Some? && Blank(MedicalPlanOf(d, i).value.planName)
      then [Finding(MedicalPath(i) + Keys([PlanNameKey]), PlanNameMissing, Required, Error)] else []
  {
    var q := MedicalPath(i) + Keys([PlanNameKey]);
    WellFormedConcat(MedicalPath(i), Keys([PlanNameKey]));
    assert q[..2] == MedicalPath(i);
    MedicalRecorded(d, i, q);
    if MedicalPlanOf(d, i).Some? {
      PlanNameAt(i, MedicalPlanOf(d, i).value);
    }
  }

  /** `medicalPlans[i].carrier` holds one required error exactly when plan
      `i` exists and its carrier is missing or blank. */
  lemma CarrierRecorded(d: SurveyData, i: nat)
    ensures Recorded(ValidateData(d), Render(MedicalPath(i) + Keys([CarrierKey]))) ==
      if MedicalPlanOf(d, i).Some? && Blank(MedicalPlanOf(d, i).value.carrier)
      then [Finding(MedicalPath(i) + Keys([CarrierKey]), CarrierMissing, Required, Error)] else []
  {
    var q := MedicalPath(i) + Keys([CarrierKey]);
    WellFormedConcat(MedicalPath(i), Keys([CarrierKey]));
    assert q[..2] == MedicalPath(i);
    MedicalRecorded(d, i, q);
    if MedicalPlanOf(d, i).Some? {
      CarrierAt(i, MedicalPlanOf(d, i).value);
    }
  }

  /** `medicalPlans[i].planType` holds one required error exactly when plan
      `i` exists and its type is missing or empty. */
  lemma PlanTypeRecorded(d: SurveyData, i: nat)
    ensures Recorded(ValidateData(d), Render(MedicalPath(i) + Keys([PlanTypeKey]))) ==
      if MedicalPlanOf(d, i).Some? && (MedicalPlanOf(d, i).value.planType.None? || MedicalPlanOf(d, i).value.planType.value == "")
      then [Finding(MedicalPath(i) + Keys([PlanTypeKey]), PlanTypeMissing, Required, Error)] else []
  {
    var q := MedicalPath(i) + Keys([PlanTypeKey]);
    WellFormedConcat(MedicalPath(i), Keys([PlanTypeKey]));
    assert q[..2] == MedicalPath(i);
    MedicalRecorded(d, i, q);
    if MedicalPlanOf(d, i).Some? {
      PlanTypeAt(i, MedicalPlanOf(d, i).value);
    }
  }

  /** `medicalPlans[i].enrolledEmployees` holds one range error exactly when
      plan `i` exists and its enrolment is negative. */
  lemma EnrolledRecorded(d: SurveyData, i: nat)
    ensures Recorded(ValidateData(d), Render(MedicalPath(i) + Keys([EnrolledEmployeesKey]))) ==
      if MedicalPlanOf(d, i).Some? && MedicalPlanOf(d, i).value.enrolledEmployees.Some? && MedicalPlanOf(d, i).value.enrolledEmployees.value < 0.0
      then [Finding(MedicalPath(i) + Keys([EnrolledEmployeesKey]), EnrolledNegative, Range, Error)] else []
  {
    var q := MedicalPath(i) + Keys([EnrolledEmployeesKey]);
    WellFormedConcat(MedicalPath(i), Keys([EnrolledEmployeesKey]));
    assert q[..2] == MedicalPath(i);
    MedicalRecorded(d, i, q);
    if MedicalPlanOf(d, i).Some? {
      EnrolledAt(i, MedicalPlanOf(d, i).value);
    }
  }

  /** Rate tier `j` of medical plan `i`, if there is one. */
  function TierOf(d: SurveyData, i: nat, j: nat): Option<RateTier> {
    var plan := MedicalPlanOf(d, i);
    if plan.Some? && plan.value.rateTiers.Some? && j < |plan.value.rateTiers.value|
    then Some(plan.value.rateTiers.value[j]) else None
  }

  /** The list recorded under a tier's field is what that tier files there. */
  lemma TierRecordedAt(d: SurveyData, i: nat, j: nat, q: Path)
    requires WellFormed(q) && Within(q, TierPath(i, j))
    ensures Recorded(ValidateData(d), Render(q)) ==
      if TierOf(d, i, j).None? then [] else PathFindings(TierFindings(i, j, TierOf(d, i, j).value), q)
  {
    assert q[..2] == q[..4][..2] == MedicalPath(i);
    MedicalRecorded(d, i, q);
    if MedicalPlanOf(d, i).Some? {
      PlanTierAt(i, MedicalPlanOf(d, i).value, j, q);
    }
  }

  /** `medicalPlans[i].rateTiers[j]` holds a logic error exactly when the
      tier's contributions miss its premium by more than a cent, and after
      it a separate range error exactly when a contribution is negative. */
  lemma TierRecorded(d: SurveyData, i: nat, j: nat)
    ensures Recorded(ValidateData(d), Render(TierPath(i, j))) ==
      if TierOf(d, i, j).None? then []
      else
        (if Mismatch(TierOf(d, i, j).value)
         then [Finding(TierPath(i, j), MismatchMessage(TierOf(d, i, j).value), Logic, Error)] else [])
        + (if Below(TierOf(d, i, j).value.employerContribution, 0.0) || Below(TierOf(d, i, j).value.employeeContribution, 0.0)
           then [Finding(TierPath(i, j), ContributionNegative, Range, Error)] else [])
  {
    WellFormedConcat(MedicalPath(i), TierTail(j));
    TierRecordedAt(d, i, j, TierPath(i, j));
    if TierOf(d, i, j).Some? {
      TierAtTier(i, j, TierOf(d, i, j).value);
    }
  }

  /** `medicalPlans[i].rateTiers[j].monthlyPremium` holds one range error
      exactly when the tier's premium is given and not positive. */
  lemma PremiumRecorded(d: SurveyData, i: nat, j: nat)
    ensures Recorded(ValidateData(d), Render(PremiumPath(i, j))) ==
      if TierOf(d, i, j).Some? && TierOf(d, i, j).value.monthlyPremium.Some?
        && TierOf(d, i, j).value.monthlyPremium.value <= 0.0
      then [Finding(PremiumPath(i, j), PremiumNotPositive, Range, Error)] else []
  {
    WellFormedConcat(MedicalPath(i), TierTail(j));
    WellFormedConcat(TierPath(i, j), Keys([MonthlyPremiumKey]));
    assert PremiumPath(i, j)[..4] == TierPath(i, j);
    TierRecordedAt(d, i, j, PremiumPath(i, j));
    if TierOf(d, i, j).Some? {
      TierAtPremium(i, j, TierOf(d, i, j).value);
    }
  }

  /** The plan design of medical plan `i`, if there is one. */
  function DesignOf(d: SurveyData, i: nat): Option<MedicalPlanDesign> {
    var plan := MedicalPlanOf(d, i);
    if plan.Some? && plan.value.planDesign.Some? then plan.value.planDesign else None
  }

  /** The list recorded under a plan-design field is what the design rules
      file there. */
  lemma DesignRecordedAt(d: SurveyData, i: nat, q: Path)
    requires WellFormed(q) && |q| > 3 && Within(q, DesignPath(i))
    ensures Recorded(ValidateData(d), Render(q)) ==
      if DesignOf(d, i).None? then [] else PathFindings(DesignFindings(i, DesignOf(d, i).value), q)
  {
    assert q[..2] == q[..3][..2] == MedicalPath(i);
    MedicalRecorded(d, i, q);
    if MedicalPlanOf(d, i).Some? {
      PlanDesignAt(i, MedicalPlanOf(d, i).value, q);
    }
  }

  /** `medicalPlans[i].planDesign.deductible` holds a range error when a
      deductible is negative and a logic warning when the family deductible
      is below the individual one, in that order. */
  lemma DeductibleRecorded(d: SurveyData, i: nat)
    ensures Recorded(ValidateData(d), Render(DeductiblePath(i))) ==
      if DesignOf(d, i).None? || DesignOf(d, i).value.deductible.None? then []
      else
        var limits := DesignOf(d, i).value.deductible.value;
        (if Below(limits.individual, 0.0) || Below(limits.family, 0.0)
         then [Finding(DeductiblePath(i), DeductibleNegative, Range, Error)] else [])
        + (if Less(limits.family, limits.individual)
           then [Finding(DeductiblePath(i), DeductibleOrder, Logic, Warning)] else [])
  {
    WellFormedConcat(MedicalPath(i), Keys([PlanDesignKey, DeductibleKey]));
    assert DeductiblePath(i)[..3] == DesignPath(i);
    DesignRecordedAt(d, i, DeductiblePath(i));
    if DesignOf(d, i).Some? {
      DeductibleAt(i, DesignOf(d, i).value);
    }
  }

  /** `medicalPlans[i].planDesign.outOfPocketMax` holds one logic warning,
      and never an error, exactly when the family maximum is below the
      individual one. */
  lemma OutOfPocketRecorded(d: SurveyData, i: nat)
    ensures Recorded(ValidateData(d), Render(OutOfPocketPath(i))) ==
      if DesignOf(d, i).Some? && DesignOf(d, i).value.outOfPocketMax.Some?
        && Less(DesignOf(d, i).value.outOfPocketMax.value.family, DesignOf(d, i).value.outOfPocketMax.value.individual)
      then [Finding(OutOfPocketPath(i), OutOfPocketOrder, Logic, Warning)] else []
  {
    WellFormedConcat(MedicalPath(i), Keys([PlanDesignKey, OutOfPocketMaxKey]));
    assert OutOfPocketPath(i)[..3] == DesignPath(i);
    DesignRecordedAt(d, i, OutOfPocketPath(i));
    if DesignOf(d, i).Some? {
      OutOfPocketAt(i, DesignOf(d, i).value);
    }
  }

  /** `medicalPlans[i].planDesign.coinsurance.inNetwork` holds one range
      error exactly when the in-network percentage lies outside [0, 100]. */
  lemma CoinsuranceRecorded(d: SurveyData, i: nat)
    ensures Recorded(ValidateData(d), Render(CoinsurancePath(i))) ==
      if DesignOf(d, i).Some? && DesignOf(d, i).value.coinsurance.Some?
        && DesignOf(d, i).value.coinsurance.value.inNetwork.Some?
        && (DesignOf(d, i).value.coinsurance.value.inNetwork.value < 0.0
            || DesignOf(d, i).value.coinsurance.value.inNetwork.value > 100.0)
      then [Finding(CoinsurancePath(i), CoinsuranceOutOfRange, Range, Error)] else []
  {
    WellFormedConcat(MedicalPath(i), Keys([PlanDesignKey, CoinsuranceKey, InNetworkKey]));
    assert CoinsurancePath(i)[..3] == DesignPath(i);
    DesignRecordedAt(d, i, CoinsurancePath(i));
    if DesignOf(d, i).Some? {
      CoinsuranceAt(i, DesignOf(d, i).value);
    }
  }
}
