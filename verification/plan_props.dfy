/**
 * What the plan rules of hooks/useValidation.ts file, and where: each
 * medical plan's findings stay below `medicalPlans[i]`, each rate tier's
 * below `medicalPlans[i].rateTiers[j]`, and at a given path only the rule
 * written for that path speaks.
 */
module PlanProps {
  import opened Options
  import opened Paths
  import opened SeqUtil
  import opened SurveyTypes
  import opened Validation
  import opened ValidationProps

  /** `p` is `prefix` itself or lies below it. */
  predicate Within(p: Path, prefix: Path) {
    |prefix| <= |p| && p[..|prefix|] == prefix
  }

  predicate AllWithin(fs: seq<Finding>, prefix: Path) {
    forall f :: f in fs ==> Within(f.path, prefix)
  }

  /** Findings that all lie within `prefix` file nothing at a path outside
      it. */
  lemma Away(fs: seq<Finding>, prefix: Path, q: Path)
    requires AllWithin(fs, prefix) && !Within(q, prefix)
    ensures PathFindings(fs, q) == []
  {
    forall f | f in fs ensures f.path != q {
      assert Within(f.path, prefix);
    }
    FilterNone((f: Finding) => f.path == q, fs);
  }

  lemma UnderIsWithin(fs: seq<Finding>, prefix: Path)
    requires AllUnder(fs, prefix)
    ensures AllWithin(fs, prefix)
  {
    forall f | f in fs ensures Within(f.path, prefix) {
      assert Under(f.path, prefix);
    }
  }

  /** A flattened sequence of blocks files at `q` what its one block that
      files at `q` does. */
  lemma {:induction false} FlatAt(blocks: seq<seq<Finding>>, k: nat, q: Path)
    requires k < |blocks|
    requires forall i :: 0 <= i < |blocks| && i != k ==> PathFindings(blocks[i], q) == []
    ensures PathFindings(Flat(blocks), q) == PathFindings(blocks[k], q)
    decreases |blocks|
  {
    assert Flat(blocks) == blocks[0] + Flat(blocks[1..]);
    PathFindingsConcat(blocks[0], Flat(blocks[1..]), q);
    if k == 0 {
      FlatNone(blocks[1..], q);
    } else {
      FlatAt(blocks[1..], k - 1, q);
    }
  }

  lemma {:induction false} FlatNone(blocks: seq<seq<Finding>>, q: Path)
    requires forall i :: 0 <= i < |blocks| ==> PathFindings(blocks[i], q) == []
    ensures PathFindings(Flat(blocks), q) == []
    decreases |blocks|
  {
    if |blocks| > 0 {
      assert Flat(blocks) == blocks[0] + Flat(blocks[1..]);
      PathFindingsConcat(blocks[0], Flat(blocks[1..]), q);
      FlatNone(blocks[1..], q);
    }
  }

  /** A rule files at its own path only. */
  lemma RuleAt(c: bool, prefix: Path, tail: Path, message: Message, kind: Kind, severity: Severity, q: Path)
    requires |tail| > 0 && WellFormed(prefix) && WellFormed(tail)
    ensures PathFindings(Rule(c, prefix, tail, message, kind, severity), q) ==
      if q == prefix + tail then Rule(c, prefix, tail, message, kind, severity) else []
  {
  }

  // Rate tiers (hooks/useValidation.ts:170-201).

  function PremiumPath(i: nat, j: nat): Path {
    TierPath(i, j) + Keys([MonthlyPremiumKey])
  }

  /** A tier's findings stay at or below its path. */
  lemma TierWithin(i: nat, j: nat, t: RateTier)
    ensures AllWithin(TierFindings(i, j, t), TierPath(i, j))
  {
    var tail := TierTail(j);
    assert MedicalPath(i) + (tail + Keys([MonthlyPremiumKey])) == PremiumPath(i, j);
    assert PremiumPath(i, j)[..4] == TierPath(i, j);
  }

  lemma TierSplit(i: nat, j: nat, k: TierChecks, q: Path)
    ensures WellFormed(TierTail(j) + Keys([MonthlyPremiumKey]))
    ensures PathFindings(TierFindingsOf(i, j, k), q) ==
      PathFindings(Rule(k.premiumNotPositive, MedicalPath(i), TierTail(j) + Keys([MonthlyPremiumKey]), PremiumNotPositive, Range, Error), q)
      + PathFindings(if k.mismatch.Some? then Rule(true, MedicalPath(i), TierTail(j), k.mismatch.value, Logic, Error) else [], q)
      + PathFindings(Rule(k.contributionNegative, MedicalPath(i), TierTail(j), ContributionNegative, Range, Error), q)
  {
    var tail := TierTail(j);
    WellFormedConcat(tail, Keys([MonthlyPremiumKey]));
    var premium := Rule(k.premiumNotPositive, MedicalPath(i), tail + Keys([MonthlyPremiumKey]), PremiumNotPositive, Range, Error);
    var mismatch := if k.mismatch.Some? then Rule(true, MedicalPath(i), tail, k.mismatch.value, Logic, Error) else [];
    var negative := Rule(k.contributionNegative, MedicalPath(i), tail, ContributionNegative, Range, Error);
    assert TierFindingsOf(i, j, k) == premium + mismatch + negative;
    PathFindingsConcat(premium + mismatch, negative, q);
    PathFindingsConcat(premium, mismatch, q);
  }

  /** A tier's three rules, one path at a time, in terms of what they
      decided. */
  lemma TierChecksAtTier(i: nat, j: nat, k: TierChecks)
    ensures PathFindings(TierFindingsOf(i, j, k), TierPath(i, j)) ==
      (if k.mismatch.Some? then [Finding(TierPath(i, j), k.mismatch.value, Logic, Error)] else [])
      + (if k.contributionNegative then [Finding(TierPath(i, j), ContributionNegative, Range, Error)] else [])
  {
    var q := TierPath(i, j);
    var tail := TierTail(j);
    TierSplit(i, j, k, q);
    RuleAt(k.premiumNotPositive, MedicalPath(i), tail + Keys([MonthlyPremiumKey]), PremiumNotPositive, Range, Error, q);
    assert |MedicalPath(i) + (tail + Keys([MonthlyPremiumKey]))| == 5;
    if k.mismatch.Some? {
      RuleAt(true, MedicalPath(i), tail, k.mismatch.value, Logic, Error, q);
    }
    RuleAt(k.contributionNegative, MedicalPath(i), tail, ContributionNegative, Range, Error, q);
  }

  lemma TierChecksAtPremium(i: nat, j: nat, k: TierChecks)
    ensures PathFindings(TierFindingsOf(i, j, k), PremiumPath(i, j)) ==
      if k.premiumNotPositive then [Finding(PremiumPath(i, j), PremiumNotPositive, Range, Error)] else []
  {
    var q := PremiumPath(i, j);
    var tail := TierTail(j);
    TierSplit(i, j, k, q);
    assert MedicalPath(i) + (tail + Keys([MonthlyPremiumKey])) == q;
    assert |q| == 5;
    RuleAt(k.premiumNotPositive, MedicalPath(i), tail + Keys([MonthlyPremiumKey]), PremiumNotPositive, Range, Error, q);
    if k.mismatch.Some? {
      RuleAt(true, MedicalPath(i), tail, k.mismatch.value, Logic, Error, q);
    }
    RuleAt(k.contributionNegative, MedicalPath(i), tail, ContributionNegative, Range, Error, q);
  }

  /** At the tier's own path: a logic error exactly when the contributions
      miss the premium by more than a cent, then a range error exactly when
      a contribution is negative. */
  lemma TierAtTier(i: nat, j: nat, t: RateTier)
    ensures PathFindings(TierFindings(i, j, t), TierPath(i, j)) ==
      (if Mismatch(t) then [Finding(TierPath(i, j), MismatchMessage(t), Logic, Error)] else [])
      + (if Below(t.employerContribution, 0.0) || Below(t.employeeContribution, 0.0)
         then [Finding(TierPath(i, j), ContributionNegative, Range, Error)] else [])
  {
    TierChecksAtTier(i, j, CheckTier(t));
  }

  /** At `monthlyPremium`: a range error exactly when the premium is given
      and not positive. */
  lemma TierAtPremium(i: nat, j: nat, t: RateTier)
    ensures PathFindings(TierFindings(i, j, t), PremiumPath(i, j)) ==
      if t.monthlyPremium.Some? && t.monthlyPremium.value <= 0.0
      then [Finding(PremiumPath(i, j), PremiumNotPositive, Range, Error)] else []
  {
    TierChecksAtPremium(i, j, CheckTier(t));
  }

  /** Among a plan's tiers, only tier `j` files at or below its own path,
      and nothing is filed there when the plan has no tier `j`. */
  lemma TiersAt(i: nat, tiers: seq<RateTier>, j: nat, q: Path)
    requires Within(q, TierPath(i, j))
    ensures PathFindings(TiersFindings(i, tiers), q) ==
      if j < |tiers| then PathFindings(TierFindings(i, j, tiers[j]), q) else []
  {
    var blocks := seq(|tiers|, k requires 0 <= k < |tiers| => TierFindings(i, k, tiers[k]));
    forall k | 0 <= k < |blocks| && k != j ensures PathFindings(blocks[k], q) == [] {
      TierWithin(i, k, tiers[k]);
      assert q[..4][3] == Index(j);
      assert TierPath(i, k)[3] == Index(k);
      Away(blocks[k], TierPath(i, k), q);
    }
    if j < |tiers| {
      FlatAt(blocks, j, q);
    } else {
      FlatNone(blocks, q);
    }
  }

  // One medical plan (hooks/useValidation.ts:133-250).

  /** A rule whose tail starts with `head` files within `prefix + head`. */
  lemma RuleWithin(c: bool, prefix: Path, tail: Path, message: Message, kind: Kind, severity: Severity, head: Path)
    requires |tail| > 0 && WellFormed(prefix) && WellFormed(tail)
    requires |head| <= |tail| && tail[..|head|] == head
    ensures AllWithin(Rule(c, prefix, tail, message, kind, severity), prefix + head)
  {
    assert (prefix + tail)[..|prefix + head|] == prefix + head;
  }

  lemma WithinTrans(p: Path, a: Path, b: Path)
    requires Within(p, a) && Within(a, b)
    ensures Within(p, b)
  {
    assert p[..|b|] == p[..|a|][..|b|];
  }

  function RateTiersPath(i: nat): Path {
    MedicalPath(i) + Keys([RateTiersKey])
  }

  function DesignPath(i: nat): Path {
    MedicalPath(i) + Keys([PlanDesignKey])
  }

  /** All tier findings of plan `i` lie within `medicalPlans[i].rateTiers`. */
  lemma TiersWithin(i: nat, tiers: seq<RateTier>)
    ensures AllWithin(TiersFindings(i, tiers), RateTiersPath(i))
  {
    var blocks := seq(|tiers|, k requires 0 <= k < |tiers| => TierFindings(i, k, tiers[k]));
    forall f | f in TiersFindings(i, tiers) ensures Within(f.path, RateTiersPath(i)) {
      var k :| 0 <= k < |blocks| && f in blocks[k];
      TierWithin(i, k, tiers[k]);
      assert TierPath(i, k)[..3] == RateTiersPath(i);
      WithinTrans(f.path, TierPath(i, k), RateTiersPath(i));
    }
  }

  /** All plan-design findings of plan `i` lie within
      `medicalPlans[i].planDesign`. */
  lemma DesignWithin(i: nat, pd: MedicalPlanDesign)
    ensures AllWithin(DesignFindings(i, pd), DesignPath(i))
  {
    var head := Keys([PlanDesignKey]);
    var deductible := if pd.deductible.None? then [] else DeductibleFindings(i, pd.deductible.value);
    var outOfPocket := if pd.outOfPocketMax.None? then [] else OutOfPocketFindings(i, pd.outOfPocketMax.value);
    var coinsurance := if pd.coinsurance.None? then [] else CoinsuranceFindings(i, pd.coinsurance.value);
    if pd.deductible.Some? {
      var d := pd.deductible.value;
      RuleWithin(Below(d.individual, 0.0) || Below(d.family, 0.0),
        MedicalPath(i), Keys([PlanDesignKey, DeductibleKey]), DeductibleNegative, Range, Error, head);
      RuleWithin(Less(d.family, d.individual), MedicalPath(i), Keys([PlanDesignKey, DeductibleKey]),
        DeductibleOrder, Logic, Warning, head);
    }
    if pd.outOfPocketMax.Some? {
      RuleWithin(Less(pd.outOfPocketMax.value.family, pd.outOfPocketMax.value.individual),
        MedicalPath(i), Keys([PlanDesignKey, OutOfPocketMaxKey]), OutOfPocketOrder, Logic, Warning, head);
    }
    if pd.coinsurance.Some? {
      var c := pd.coinsurance.value.inNetwork;
      RuleWithin(Below(c, 0.0) || Above(c, 100.0), MedicalPath(i), Keys([PlanDesignKey, CoinsuranceKey, InNetworkKey]),
        CoinsuranceOutOfRange, Range, Error, head);
    }
    assert DesignFindings(i, pd) == deductible + outOfPocket + coinsurance;
  }

  /** A plan's findings at `q`, rule by rule. */
  lemma PlanSplit(i: nat, plan: MedicalPlan, q: Path)
    ensures PathFindings(MedicalPlanFindings(i, plan), q) ==
      PathFindings(Rule(Blank(plan.planName), MedicalPath(i), Keys([PlanNameKey]), PlanNameMissing, Required, Error), q)
      + PathFindings(Rule(Blank(plan.carrier), MedicalPath(i), Keys([CarrierKey]), CarrierMissing, Required, Error), q)
      + PathFindings(Rule(!Filled(plan.planType), MedicalPath(i), Keys([PlanTypeKey]), PlanTypeMissing, Required, Error), q)
      + PathFindings(Rule(Below(plan.enrolledEmployees, 0.0), MedicalPath(i), Keys([EnrolledEmployeesKey]), EnrolledNegative, Range, Error), q)
      + PathFindings(if plan.rateTiers.None? then [] else TiersFindings(i, plan.rateTiers.value), q)
      + PathFindings(if plan.planDesign.None? then [] else DesignFindings(i, plan.planDesign.value), q)
  {
    var name := Rule(Blank(plan.planName), MedicalPath(i), Keys([PlanNameKey]), PlanNameMissing, Required, Error);
    var carrier := Rule(Blank(plan.carrier), MedicalPath(i), Keys([CarrierKey]), CarrierMissing, Required, Error);
    var planType := Rule(!Filled(plan.planType), MedicalPath(i), Keys([PlanTypeKey]), PlanTypeMissing, Required, Error);
    var enrolled := Rule(Below(plan.enrolledEmployees, 0.0), MedicalPath(i), Keys([EnrolledEmployeesKey]), EnrolledNegative, Range, Error);
    var tiers := if plan.rateTiers.None? then [] else TiersFindings(i, plan.rateTiers.value);
    var design := if plan.planDesign.None? then [] else DesignFindings(i, plan.planDesign.value);
    assert MedicalPlanFindings(i, plan) == name + carrier + planType + enrolled + tiers + design;
    PathFindingsConcat(name + carrier + planType + enrolled + tiers, design, q);
    PathFindingsConcat(name + carrier + planType + enrolled, tiers, q);
    PathFindingsConcat(name + carrier + planType, enrolled, q);
    PathFindingsConcat(name + carrier, planType, q);
    PathFindingsConcat(name, carrier, q);
  }

  /** At a plan's own one-key field, the tier and design blocks are silent. */
  lemma PlanBlocksAway(i: nat, plan: MedicalPlan, name: Name)
    requires name != RateTiersKey && name != PlanDesignKey
    ensures PathFindings(if plan.rateTiers.None? then [] else TiersFindings(i, plan.rateTiers.value), MedicalPath(i) + Keys([name])) == []
    ensures PathFindings(if plan.planDesign.None? then [] else DesignFindings(i, plan.planDesign.value), MedicalPath(i) + Keys([name])) == []
  {
    var q := MedicalPath(i) + Keys([name]);
    assert q[..3][2] == Key(name);
    if plan.rateTiers.Some? {
      TiersWithin(i, plan.rateTiers.value);
      assert RateTiersPath(i)[2] == Key(RateTiersKey);
      Away(TiersFindings(i, plan.rateTiers.value), RateTiersPath(i), q);
    }
    if plan.planDesign.Some? {
      DesignWithin(i, plan.planDesign.value);
      assert DesignPath(i)[2] == Key(PlanDesignKey);
      Away(DesignFindings(i, plan.planDesign.value), DesignPath(i), q);
    }
  }

  /** A rule at a plan's one-key field files only at that field. */
  lemma PlanRuleAt(i: nat, c: bool, name: Name, message: Message, kind: Kind, severity: Severity, other: Name)
    ensures PathFindings(Rule(c, MedicalPath(i), Keys([name]), message, kind, severity), MedicalPath(i) + Keys([other])) ==
      if name == other then Rule(c, MedicalPath(i), Keys([name]), message, kind, severity) else []
  {
    RuleAt(c, MedicalPath(i), Keys([name]), message, kind, severity, MedicalPath(i) + Keys([other]));
    if MedicalPath(i) + Keys([name]) == MedicalPath(i) + Keys([other]) {
      assert (MedicalPath(i) + Keys([name]))[2] == (MedicalPath(i) + Keys([other]))[2];
    }
  }

  lemma FirstOfSix(a: seq<Finding>, b: seq<Finding>, c: seq<Finding>, d: seq<Finding>,
    e: seq<Finding>, f: seq<Finding>)
    requires b == [] && c == [] && d == [] && e == [] && f == []
    ensures a + b + c + d + e + f == a
  {
  }

  lemma SecondOfSix(a: seq<Finding>, b: seq<Finding>, c: seq<Finding>, d: seq<Finding>,
    e: seq<Finding>, f: seq<Finding>)
    requires a == [] && c == [] && d == [] && e == [] && f == []
    ensures a + b + c + d + e + f == b
  {
  }

  lemma ThirdOfSix(a: seq<Finding>, b: seq<Finding>, c: seq<Finding>, d: seq<Finding>,
    e: seq<Finding>, f: seq<Finding>)
    requires a == [] && b == [] && d == [] && e == [] && f == []
    ensures a + b + c + d + e + f == c
  {
  }

  lemma FourthOfSix(a: seq<Finding>, b: seq<Finding>, c: seq<Finding>, d: seq<Finding>,
    e: seq<Finding>, f: seq<Finding>)
    requires a == [] && b == [] && c == [] && e == [] && f == []
    ensures a + b + c + d + e + f == d
  {
  }

  /** A missing or blank plan name is one required error. */
  lemma PlanNameAt(i: nat, plan: MedicalPlan)
    ensures PathFindings(MedicalPlanFindings(i, plan), MedicalPath(i) + Keys([PlanNameKey])) ==
      if Blank(plan.planName) then [Finding(MedicalPath(i) + Keys([PlanNameKey]), PlanNameMissing, Required, Error)] else []
  {
    var q := MedicalPath(i) + Keys([PlanNameKey]);
    PlanSplit(i, plan, q);
    PlanBlocksAway(i, plan, PlanNameKey);
    PlanRuleAt(i, Blank(plan.planName), PlanNameKey, PlanNameMissing, Required, Error, PlanNameKey);
    PlanRuleAt(i, Blank(plan.carrier), CarrierKey, CarrierMissing, Required, Error, PlanNameKey);
    PlanRuleAt(i, !Filled(plan.planType), PlanTypeKey, PlanTypeMissing, Required, Error, PlanNameKey);
    PlanRuleAt(i, Below(plan.enrolledEmployees, 0.0), EnrolledEmployeesKey, EnrolledNegative, Range, Error, PlanNameKey);
    FirstOfSix(
      PathFindings(Rule(Blank(plan.planName), MedicalPath(i), Keys([PlanNameKey]), PlanNameMissing, Required, Error), q),
      PathFindings(Rule(Blank(plan.carrier), MedicalPath(i), Keys([CarrierKey]), CarrierMissing, Required, Error), q),
      PathFindings(Rule(!Filled(plan.planType), MedicalPath(i), Keys([PlanTypeKey]), PlanTypeMissing, Required, Error), q),
      PathFindings(Rule(Below(plan.enrolledEmployees, 0.0), MedicalPath(i), Keys([EnrolledEmployeesKey]), EnrolledNegative, Range, Error), q),
      PathFindings(if plan.rateTiers.None? then [] else TiersFindings(i, plan.rateTiers.value), q),
      PathFindings(if plan.planDesign.None? then [] else DesignFindings(i, plan.planDesign.value), q));
  }

  /** A missing or blank carrier is one required error. */
  lemma CarrierAt(i: nat, plan: MedicalPlan)
    ensures PathFindings(MedicalPlanFindings(i, plan), MedicalPath(i) + Keys([CarrierKey])) ==
      if Blank(plan.carrier) then [Finding(MedicalPath(i) + Keys([CarrierKey]), CarrierMissing, Required, Error)] else []
  {
    var q := MedicalPath(i) + Keys([CarrierKey]);
    PlanSplit(i, plan, q);
    PlanBlocksAway(i, plan, CarrierKey);
    PlanRuleAt(i, Blank(plan.planName), PlanNameKey, PlanNameMissing, Required, Error, CarrierKey);
    PlanRuleAt(i, Blank(plan.carrier), CarrierKey, CarrierMissing, Required, Error, CarrierKey);
    PlanRuleAt(i, !Filled(plan.planType), PlanTypeKey, PlanTypeMissing, Required, Error, CarrierKey);
    PlanRuleAt(i, Below(plan.enrolledEmployees, 0.0), EnrolledEmployeesKey, EnrolledNegative, Range, Error, CarrierKey);
    SecondOfSix(
      PathFindings(Rule(Blank(plan.planName), MedicalPath(i), Keys([PlanNameKey]), PlanNameMissing, Required, Error), q),
      PathFindings(Rule(Blank(plan.carrier), MedicalPath(i), Keys([CarrierKey]), CarrierMissing, Required, Error), q),
      PathFindings(Rule(!Filled(plan.planType), MedicalPath(i), Keys([PlanTypeKey]), PlanTypeMissing, Required, Error), q),
      PathFindings(Rule(Below(plan.enrolledEmployees, 0.0), MedicalPath(i), Keys([EnrolledEmployeesKey]), EnrolledNegative, Range, Error), q),
      PathFindings(if plan.rateTiers.None? then [] else TiersFindings(i, plan.rateTiers.value), q),
      PathFindings(if plan.planDesign.None? then [] else DesignFindings(i, plan.planDesign.value), q));
  }

  /** A missing or empty plan type is one required error; unlike the name, a
      plan type of spaces passes. */
  lemma PlanTypeAt(i: nat, plan: MedicalPlan)
    ensures PathFindings(MedicalPlanFindings(i, plan), MedicalPath(i) + Keys([PlanTypeKey])) ==
      if plan.planType.None? || plan.planType.value == "" then [Finding(MedicalPath(i) + Keys([PlanTypeKey]), PlanTypeMissing, Required, Error)] else []
  {
    var q := MedicalPath(i) + Keys([PlanTypeKey]);
    PlanSplit(i, plan, q);
    PlanBlocksAway(i, plan, PlanTypeKey);
    PlanRuleAt(i, Blank(plan.planName), PlanNameKey, PlanNameMissing, Required, Error, PlanTypeKey);
    PlanRuleAt(i, Blank(plan.carrier), CarrierKey, CarrierMissing, Required, Error, PlanTypeKey);
    PlanRuleAt(i, !Filled(plan.planType), PlanTypeKey, PlanTypeMissing, Required, Error, PlanTypeKey);
    PlanRuleAt(i, Below(plan.enrolledEmployees, 0.0), EnrolledEmployeesKey, EnrolledNegative, Range, Error, PlanTypeKey);
    ThirdOfSix(
      PathFindings(Rule(Blank(plan.planName), MedicalPath(i), Keys([PlanNameKey]), PlanNameMissing, Required, Error), q),
      PathFindings(Rule(Blank(plan.carrier), MedicalPath(i), Keys([CarrierKey]), CarrierMissing, Required, Error), q),
      PathFindings(Rule(!Filled(plan.planType), MedicalPath(i), Keys([PlanTypeKey]), PlanTypeMissing, Required, Error), q),
      PathFindings(Rule(Below(plan.enrolledEmployees, 0.0), MedicalPath(i), Keys([EnrolledEmployeesKey]), EnrolledNegative, Range, Error), q),
      PathFindings(if plan.rateTiers.None? then [] else TiersFindings(i, plan.rateTiers.value), q),
      PathFindings(if plan.planDesign.None? then [] else DesignFindings(i, plan.planDesign.value), q));
  }

  /** A negative enrolment is one range error. */
  lemma EnrolledAt(i: nat, plan: MedicalPlan)
    ensures PathFindings(MedicalPlanFindings(i, plan), MedicalPath(i) + Keys([EnrolledEmployeesKey])) ==
      if plan.enrolledEmployees.Some? && plan.enrolledEmployees.value < 0.0 then [Finding(MedicalPath(i) + Keys([EnrolledEmployeesKey]), EnrolledNegative, Range, Error)] else []
  {
    var q := MedicalPath(i) + Keys([EnrolledEmployeesKey]);
    PlanSplit(i, plan, q);
    PlanBlocksAway(i, plan, EnrolledEmployeesKey);
    PlanRuleAt(i, Blank(plan.planName), PlanNameKey, PlanNameMissing, Required, Error, EnrolledEmployeesKey);
    PlanRuleAt(i, Blank(plan.carrier), CarrierKey, CarrierMissing, Required, Error, EnrolledEmployeesKey);
    PlanRuleAt(i, !Filled(plan.planType), PlanTypeKey, PlanTypeMissing, Required, Error, EnrolledEmployeesKey);
    PlanRuleAt(i, Below(plan.enrolledEmployees, 0.0), EnrolledEmployeesKey, EnrolledNegative, Range, Error, EnrolledEmployeesKey);
    FourthOfSix(
      PathFindings(Rule(Blank(plan.planName), MedicalPath(i), Keys([PlanNameKey]), PlanNameMissing, Required, Error), q),
      PathFindings(Rule(Blank(plan.carrier), MedicalPath(i), Keys([CarrierKey]), CarrierMissing, Required, Error), q),
      PathFindings(Rule(!Filled(plan.planType), MedicalPath(i), Keys([PlanTypeKey]), PlanTypeMissing, Required, Error), q),
      PathFindings(Rule(Below(plan.enrolledEmployees, 0.0), MedicalPath(i), Keys([EnrolledEmployeesKey]), EnrolledNegative, Range, Error), q),
      PathFindings(if plan.rateTiers.None? then [] else TiersFindings(i, plan.rateTiers.value), q),
      PathFindings(if plan.planDesign.None? then [] else DesignFindings(i, plan.planDesign.value), q));
  }

  lemma FifthOfSix(a: seq<Finding>, b: seq<Finding>, c: seq<Finding>, d: seq<Finding>,
    e: seq<Finding>, f: seq<Finding>)
    requires a == [] && b == [] && c == [] && d == [] && f == []
    ensures a + b + c + d + e + f == e
  {
  }

  lemma SixthOfSix(a: seq<Finding>, b: seq<Finding>, c: seq<Finding>, d: seq<Finding>,
    e: seq<Finding>, f: seq<Finding>)
    requires a == [] && b == [] && c == [] && d == [] && e == []
    ensures a + b + c + d + e + f == f
  {
  }

  /** The four one-key rules of a plan are silent below a two-level path
      whose second key is none of theirs. */
  lemma PlanRulesAway(i: nat, plan: MedicalPlan, q: Path, head: Name)
    requires |q| > 3 && q[..3] == MedicalPath(i) + Keys([head])
    ensures PathFindings(Rule(Blank(plan.planName), MedicalPath(i), Keys([PlanNameKey]), PlanNameMissing, Required, Error), q) == []
    ensures PathFindings(Rule(Blank(plan.carrier), MedicalPath(i), Keys([CarrierKey]), CarrierMissing, Required, Error), q) == []
    ensures PathFindings(Rule(!Filled(plan.planType), MedicalPath(i), Keys([PlanTypeKey]), PlanTypeMissing, Required, Error), q) == []
    ensures PathFindings(Rule(Below(plan.enrolledEmployees, 0.0), MedicalPath(i), Keys([EnrolledEmployeesKey]), EnrolledNegative, Range, Error), q) == []
  {
    RuleAt(Blank(plan.planName), MedicalPath(i), Keys([PlanNameKey]), PlanNameMissing, Required, Error, q);
    RuleAt(Blank(plan.carrier), MedicalPath(i), Keys([CarrierKey]), CarrierMissing, Required, Error, q);
    RuleAt(!Filled(plan.planType), MedicalPath(i), Keys([PlanTypeKey]), PlanTypeMissing, Required, Error, q);
    RuleAt(Below(plan.enrolledEmployees, 0.0), MedicalPath(i), Keys([EnrolledEmployeesKey]), EnrolledNegative, Range, Error, q);
  }

  lemma DesignAway(i: nat, plan: MedicalPlan, q: Path)
    requires |q| > 3 && q[..3] == RateTiersPath(i)
    ensures PathFindings(if plan.planDesign.None? then [] else DesignFindings(i, plan.planDesign.value), q) == []
  {
    if plan.planDesign.Some? {
      DesignWithin(i, plan.planDesign.value);
      assert DesignPath(i)[2] == Key(PlanDesignKey);
      assert q[..3][2] == Key(RateTiersKey);
      Away(DesignFindings(i, plan.planDesign.value), DesignPath(i), q);
    }
  }

  /** Below `medicalPlans[i].rateTiers[j]`, a plan files what tier `j`
      files. */
  lemma PlanTierAt(i: nat, plan: MedicalPlan, j: nat, q: Path)
    requires Within(q, TierPath(i, j))
    ensures PathFindings(MedicalPlanFindings(i, plan), q) ==
      if plan.rateTiers.Some? && j < |plan.rateTiers.value|
      then PathFindings(TierFindings(i, j, plan.rateTiers.value[j]), q) else []
  {
    PlanSplit(i, plan, q);
    assert q[..3] == RateTiersPath(i) by {
      assert q[..3] == q[..|TierPath(i, j)|][..3];
    }
    PlanRulesAway(i, plan, q, RateTiersKey);
    if plan.rateTiers.Some? {
      TiersAt(i, plan.rateTiers.value, j, q);
    }
    DesignAway(i, plan, q);
    FifthOfSix(
      PathFindings(Rule(Blank(plan.planName), MedicalPath(i), Keys([PlanNameKey]), PlanNameMissing, Required, Error), q),
      PathFindings(Rule(Blank(plan.carrier), MedicalPath(i), Keys([CarrierKey]), CarrierMissing, Required, Error), q),
      PathFindings(Rule(!Filled(plan.planType), MedicalPath(i), Keys([PlanTypeKey]), PlanTypeMissing, Required, Error), q),
      PathFindings(Rule(Below(plan.enrolledEmployees, 0.0), MedicalPath(i), Keys([EnrolledEmployeesKey]), EnrolledNegative, Range, Error), q),
      PathFindings(if plan.rateTiers.None? then [] else TiersFindings(i, plan.rateTiers.value), q),
      PathFindings(if plan.planDesign.None? then [] else DesignFindings(i, plan.planDesign.value), q));
  }

  /** Below `medicalPlans[i].planDesign`, a plan files what its design
      rules file. */
  lemma PlanDesignAt(i: nat, plan: MedicalPlan, q: Path)
    requires |q| > 3 && Within(q, DesignPath(i))
    ensures PathFindings(MedicalPlanFindings(i, plan), q) ==
      if plan.planDesign.None? then [] else PathFindings(DesignFindings(i, plan.planDesign.value), q)
  {
    PlanSplit(i, plan, q);
    PlanRulesAway(i, plan, q, PlanDesignKey);
    if plan.rateTiers.Some? {
      TiersWithin(i, plan.rateTiers.value);
      assert RateTiersPath(i)[2] == Key(RateTiersKey);
      assert q[..3][2] == Key(PlanDesignKey);
      Away(TiersFindings(i, plan.rateTiers.value), RateTiersPath(i), q);
    }
    SixthOfSix(
      PathFindings(Rule(Blank(plan.planName), MedicalPath(i), Keys([PlanNameKey]), PlanNameMissing, Required, Error), q),
      PathFindings(Rule(Blank(plan.carrier), MedicalPath(i), Keys([CarrierKey]), CarrierMissing, Required, Error), q),
      PathFindings(Rule(!Filled(plan.planType), MedicalPath(i), Keys([PlanTypeKey]), PlanTypeMissing, Required, Error), q),
      PathFindings(Rule(Below(plan.enrolledEmployees, 0.0), MedicalPath(i), Keys([EnrolledEmployeesKey]), EnrolledNegative, Range, Error), q),
      PathFindings(if plan.rateTiers.None? then [] else TiersFindings(i, plan.rateTiers.value), q),
      PathFindings(if plan.planDesign.None? then [] else DesignFindings(i, plan.planDesign.value), q));
  }

  // Plan design (hooks/useValidation.ts:205-249).

  function DeductiblePath(i: nat): Path {
    MedicalPath(i) + Keys([PlanDesignKey, DeductibleKey])
  }

  function OutOfPocketPath(i: nat): Path {
    MedicalPath(i) + Keys([PlanDesignKey, OutOfPocketMaxKey])
  }

  function CoinsurancePath(i: nat): Path {
    MedicalPath(i) + Keys([PlanDesignKey, CoinsuranceKey, InNetworkKey])
  }

  /** The design findings at `q`, part by part. */
  lemma DesignSplit(i: nat, pd: MedicalPlanDesign, q: Path)
    ensures PathFindings(DesignFindings(i, pd), q) ==
      PathFindings(if pd.deductible.None? then [] else DeductibleFindings(i, pd.deductible.value), q)
      + PathFindings(if pd.outOfPocketMax.None? then [] else OutOfPocketFindings(i, pd.outOfPocketMax.value), q)
      + PathFindings(if pd.coinsurance.None? then [] else CoinsuranceFindings(i, pd.coinsurance.value), q)
  {
    var deductible := if pd.deductible.None? then [] else DeductibleFindings(i, pd.deductible.value);
    var outOfPocket := if pd.outOfPocketMax.None? then [] else OutOfPocketFindings(i, pd.outOfPocketMax.value);
    var coinsurance := if pd.coinsurance.None? then [] else CoinsuranceFindings(i, pd.coinsurance.value);
    assert DesignFindings(i, pd) == deductible + outOfPocket + coinsurance;
    PathFindingsConcat(deductible + outOfPocket, coinsurance, q);
    PathFindingsConcat(deductible, outOfPocket, q);
  }

  /** The deductible rules file at `planDesign.deductible` only. */
  lemma DeductibleRulesAt(i: nat, d: Limits, q: Path)
    ensures PathFindings(DeductibleFindings(i, d), q) ==
      if q != DeductiblePath(i) then []
      else
        (if Below(d.individual, 0.0) || Below(d.family, 0.0)
         then [Finding(DeductiblePath(i), DeductibleNegative, Range, Error)] else [])
        + (if Less(d.family, d.individual) then [Finding(DeductiblePath(i), DeductibleOrder, Logic, Warning)] else [])
  {
    var negative := Rule(Below(d.individual, 0.0) || Below(d.family, 0.0),
      MedicalPath(i), Keys([PlanDesignKey, DeductibleKey]), DeductibleNegative, Range, Error);
    var order := Rule(Less(d.family, d.individual), MedicalPath(i), Keys([PlanDesignKey, DeductibleKey]),
      DeductibleOrder, Logic, Warning);
    PathFindingsConcat(negative, order, q);
  }

  /** The out-of-pocket rule files at `planDesign.outOfPocketMax` only. */
  lemma OutOfPocketRulesAt(i: nat, m: Limits, q: Path)
    ensures PathFindings(OutOfPocketFindings(i, m), q) ==
      if q == OutOfPocketPath(i) && Less(m.family, m.individual)
      then [Finding(OutOfPocketPath(i), OutOfPocketOrder, Logic, Warning)] else []
  {
    RuleAt(Less(m.family, m.individual), MedicalPath(i), Keys([PlanDesignKey, OutOfPocketMaxKey]),
      OutOfPocketOrder, Logic, Warning, q);
  }

  /** The coinsurance rule files at `planDesign.coinsurance.inNetwork` only. */
  lemma CoinsuranceRulesAt(i: nat, c: Coinsurance, q: Path)
    ensures PathFindings(CoinsuranceFindings(i, c), q) ==
      if q == CoinsurancePath(i) && (Below(c.inNetwork, 0.0) || Above(c.inNetwork, 100.0))
      then [Finding(CoinsurancePath(i), CoinsuranceOutOfRange, Range, Error)] else []
  {
    RuleAt(Below(c.inNetwork, 0.0) || Above(c.inNetwork, 100.0), MedicalPath(i),
      Keys([PlanDesignKey, CoinsuranceKey, InNetworkKey]), CoinsuranceOutOfRange, Range, Error, q);
  }

  lemma FirstOfThree(a: seq<Finding>, b: seq<Finding>, c: seq<Finding>)
    requires b == [] && c == []
    ensures a + b + c == a
  {
  }

  lemma SecondOfThree(a: seq<Finding>, b: seq<Finding>, c: seq<Finding>)
    requires a == [] && c == []
    ensures a + b + c == b
  {
  }

  lemma ThirdOfThree(a: seq<Finding>, b: seq<Finding>, c: seq<Finding>)
    requires a == [] && b == []
    ensures a + b + c == c
  {
  }

  /** The design findings at `planDesign.deductible`: a range error when
      either deductible is negative, then a logic warning when the family
      deductible is below the individual one. */
  lemma DeductibleAt(i: nat, pd: MedicalPlanDesign)
    ensures PathFindings(DesignFindings(i, pd), DeductiblePath(i)) ==
      if pd.deductible.None? then []
      else
        (if Below(pd.deductible.value.individual, 0.0) || Below(pd.deductible.value.family, 0.0)
         then [Finding(DeductiblePath(i), DeductibleNegative, Range, Error)] else [])
        + (if Less(pd.deductible.value.family, pd.deductible.value.individual)
           then [Finding(DeductiblePath(i), DeductibleOrder, Logic, Warning)] else [])
  {
    var q := DeductiblePath(i);
    var deductible := if pd.deductible.None? then [] else DeductibleFindings(i, pd.deductible.value);
    var outOfPocket := if pd.outOfPocketMax.None? then [] else OutOfPocketFindings(i, pd.outOfPocketMax.value);
    var coinsurance := if pd.coinsurance.None? then [] else CoinsuranceFindings(i, pd.coinsurance.value);
    DesignSplit(i, pd, q);
    if pd.deductible.Some? { DeductibleRulesAt(i, pd.deductible.value, q); }
    assert PathFindings(outOfPocket, q) == [] by {
      if pd.outOfPocketMax.Some? {
        OutOfPocketRulesAt(i, pd.outOfPocketMax.value, q);
        assert q[3] != OutOfPocketPath(i)[3];
      }
    }
    assert PathFindings(coinsurance, q) == [] by {
      if pd.coinsurance.Some? {
        CoinsuranceRulesAt(i, pd.coinsurance.value, q);
        assert |q| != |CoinsurancePath(i)|;
      }
    }
    FirstOfThree(PathFindings(deductible, q), PathFindings(outOfPocket, q), PathFindings(coinsurance, q));
  }

  /** The design findings at `planDesign.outOfPocketMax`: a logic warning,
      never an error, when the family maximum is below the individual one. */
  lemma OutOfPocketAt(i: nat, pd: MedicalPlanDesign)
    ensures PathFindings(DesignFindings(i, pd), OutOfPocketPath(i)) ==
      if pd.outOfPocketMax.Some? && Less(pd.outOfPocketMax.value.family, pd.outOfPocketMax.value.individual)
      then [Finding(OutOfPocketPath(i), OutOfPocketOrder, Logic, Warning)] else []
  {
    var q := OutOfPocketPath(i);
    var deductible := if pd.deductible.None? then [] else DeductibleFindings(i, pd.deductible.value);
    var outOfPocket := if pd.outOfPocketMax.None? then [] else OutOfPocketFindings(i, pd.outOfPocketMax.value);
    var coinsurance := if pd.coinsurance.None? then [] else CoinsuranceFindings(i, pd.coinsurance.value);
    DesignSplit(i, pd, q);
    assert PathFindings(deductible, q) == [] by {
      if pd.deductible.Some? {
        DeductibleRulesAt(i, pd.deductible.value, q);
        assert q[3] != DeductiblePath(i)[3];
      }
    }
    if pd.outOfPocketMax.Some? { OutOfPocketRulesAt(i, pd.outOfPocketMax.value, q); }
    assert PathFindings(coinsurance, q) == [] by {
      if pd.coinsurance.Some? {
        CoinsuranceRulesAt(i, pd.coinsurance.value, q);
        assert |q| != |CoinsurancePath(i)|;
      }
    }
    SecondOfThree(PathFindings(deductible, q), PathFindings(outOfPocket, q), PathFindings(coinsurance, q));
  }

  /** The design findings at `planDesign.coinsurance.inNetwork`: a range
      error when the in-network percentage lies outside [0, 100]. */
  lemma CoinsuranceAt(i: nat, pd: MedicalPlanDesign)
    ensures PathFindings(DesignFindings(i, pd), CoinsurancePath(i)) ==
      if pd.coinsurance.Some? && pd.coinsurance.value.inNetwork.Some?
        && (pd.coinsurance.value.inNetwork.value < 0.0 || pd.coinsurance.value.inNetwork.value > 100.0)
      then [Finding(CoinsurancePath(i), CoinsuranceOutOfRange, Range, Error)] else []
  {
    var q := CoinsurancePath(i);
    var deductible := if pd.deductible.None? then [] else DeductibleFindings(i, pd.deductible.value);
    var outOfPocket := if pd.outOfPocketMax.None? then [] else OutOfPocketFindings(i, pd.outOfPocketMax.value);
    var coinsurance := if pd.coinsurance.None? then [] else CoinsuranceFindings(i, pd.coinsurance.value);
    DesignSplit(i, pd, q);
    assert PathFindings(deductible, q) == [] by {
      if pd.deductible.Some? {
        DeductibleRulesAt(i, pd.deductible.value, q);
        assert |q| != |DeductiblePath(i)|;
      }
    }
    assert PathFindings(outOfPocket, q) == [] by {
      if pd.outOfPocketMax.Some? {
        OutOfPocketRulesAt(i, pd.outOfPocketMax.value, q);
        assert |q| != |OutOfPocketPath(i)|;
      }
    }
    if pd.coinsurance.Some? { CoinsuranceRulesAt(i, pd.coinsurance.value, q); }
    ThirdOfThree(PathFindings(deductible, q), PathFindings(outOfPocket, q), PathFindings(coinsurance, q));
  }
}
