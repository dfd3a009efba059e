/**
 * The survey document as the submission validator reads it
 * (types/survey.ts): every field optional, `None` standing for
 * `undefined`. Only the fields some rule reads are spelled out; the six
 * sections no rule reads are kept as untyped values.
 *
 * Amounts are exact reals: `NaN`, `null` in place of a number, and values
 * of the wrong JavaScript type are outside this typed view.
 */
module SurveyTypes {
  import opened Options
  import opened Values

  datatype GeneralInformation = GeneralInformation(
    organizationName: Option<string>,
    contactPerson: Option<string>,
    email: Option<string>,
    phone: Option<string>,
    employeeCount: Option<real>,
    eligibleEmployees: Option<real>,
    averageAge: Option<real>)

  datatype RateTier = RateTier(
    monthlyPremium: Option<real>,
    employeeContribution: Option<real>,
    employerContribution: Option<real>)

  /** The `{ individual, family }` pair of a deductible or an
      out-of-pocket maximum. */
  datatype Limits = Limits(individual: Option<real>, family: Option<real>)

  datatype Coinsurance = Coinsurance(inNetwork: Option<real>)

  datatype MedicalPlanDesign = MedicalPlanDesign(
    deductible: Option<Limits>,
    outOfPocketMax: Option<Limits>,
    coinsurance: Option<Coinsurance>)

  datatype MedicalPlan = MedicalPlan(
    planName: Option<string>,
    carrier: Option<string>,
    planType: Option<string>,
    enrolledEmployees: Option<real>,
    rateTiers: Option<seq<RateTier>>,
    planDesign: Option<MedicalPlanDesign>)

  datatype DentalCoverage = DentalCoverage(
    preventive: Option<real>,
    basic: Option<real>,
    major: Option<real>,
    orthodontia: Option<real>)

  datatype DentalPlanDesign = DentalPlanDesign(coverage: Option<DentalCoverage>)

  datatype DentalPlan = DentalPlan(
    planName: Option<string>,
    carrier: Option<string>,
    planDesign: Option<DentalPlanDesign>)

  datatype EmployerMatch = EmployerMatch(provided: Option<bool>, formula: Option<string>)

  datatype Plan401k = Plan401k(offered: Option<bool>, employerMatch: Option<EmployerMatch>)

  datatype Retirement = Retirement(plan401k: Option<Plan401k>)

  datatype SurveyData = SurveyData(
    generalInformation: Option<GeneralInformation>,
    medicalPlans: Option<seq<MedicalPlan>>,
    dentalPlans: Option<seq<DentalPlan>>,
    visionPlans: Option<Value>,
    basicLifeDisability: Option<Value>,
    retirement: Option<Retirement>,
    timeOff: Option<Value>,
    benefitsStrategy: Option<Value>,
    voluntaryBenefits: Option<Value>,
    bestPractices: Option<Value>)

  /** The empty document `{}`. */
  const EmptySurvey := SurveyData(None, None, None, None, None, None, None, None, None, None)
}
