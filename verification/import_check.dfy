/**
 * The structural check of the import route (app/api/surveys/import/route.ts):
 * `validateImportData` on the untyped `data` of the request body, and the
 * gate in `POST` that answers 400 with the error list before anything is
 * stored.
 *
 * It is a second policy, separate from the submission validator: plain
 * error strings with no severity, truthiness tests with no trimming, and
 * only a handful of fields looked at. The e-mail test is the same regex.
 */
module ImportCheck {
  import opened Options
  import opened JsText
  import opened Numbers
  import opened Values
  import opened Patterns
  import opened SeqUtil
  import Validation

  /** The list sections whose type the route checks. */
  datatype ListSection = MedicalPlans | DentalPlans | VisionPlans

  function SectionKey(s: ListSection): string {
    match s
    case MedicalPlans => "medicalPlans"
    case DentalPlans => "dentalPlans"
    case VisionPlans => "visionPlans"
  }

  /** One error the route reports; `ErrorText` gives its exact string. */
  datatype ImportError =
    | NotAnObject
    | NoSection
    | GeneralNotObject
    | EmailInvalid
    | EmployeeCountInvalid
    | NotAnArray(section: ListSection)
    | NameRequired(section: ListSection, index: nat)
    | CarrierRequired(section: ListSection, index: nat)
    | RateTiersNotArray(index: nat)

  function ErrorText(e: ImportError): string {
    match e
    case NotAnObject => "Survey data must be an object"
    case NoSection => "Survey data must contain at least one valid section"
    case GeneralNotObject => "generalInformation must be an object"
    case EmailInvalid => "generalInformation.email must be a valid email address"
    case EmployeeCountInvalid => "generalInformation.employeeCount must be a non-negative number"
    case NotAnArray(s) => SectionKey(s) + " must be an array"
    case NameRequired(s, i) => SectionKey(s) + "[" + NatToString(i) + "].planName is required"
    case CarrierRequired(s, i) => SectionKey(s) + "[" + NatToString(i) + "].carrier is required"
    case RateTiersNotArray(i) => "medicalPlans[" + NatToString(i) + "].rateTiers must be an array"
  }

  /** What `validateImportData` does: return its error list, or throw a
      `TypeError` by reading a property of a `null` plan. */
  datatype Checked = Errors(list: seq<ImportError>) | Threw

  const ExpectedSections: seq<string> := [
    "generalInformation", "medicalPlans", "dentalPlans", "visionPlans", "basicLifeDisability",
    "retirement", "timeOff", "benefitsStrategy", "voluntaryBenefits", "bestPractices"
  ]

  /** `expectedSections.some(section => section in data)`: a test of the
      keys only, whatever they are bound to. */
  predicate HasAnySection(v: Value)
    requires v.Obj? || v.Arr?
  {
    exists k :: 0 <= k < |ExpectedSections| && HasKey(v, ExpectedSections[k])
  }

  /** `x < 0` for a value already known to be of type number. */
  predicate Negative(v: Value) {
    (v.Num? && v.n.units < 0) || v == NonFinite(NegInfinity)
  }

  /** `typeof x !== 'number' || x < 0`: the employee-count test. */
  predicate CountRejected(x: Option<Value>)
    requires x.Some?
  {
    !IsNumberType(x) || Negative(x.value)
  }

  /** The employee count passes exactly as a number of type number that is
      not below 0: a non-negative decimal, `NaN` or `Infinity`. */
  lemma CountRejectedIff(x: Option<Value>)
    requires x.Some?
    ensures !CountRejected(x) <==>
      (x.value.Num? && x.value.n.units >= 0) || x.value == NonFinite(NaN) || x.value == NonFinite(PosInfinity)
  {
    if x.value.NonFinite? {
      match x.value.kind
      case NaN =>
      case PosInfinity =>
      case NegInfinity =>
    }
  }

  /** The regex test on `String(email)`. */
  predicate EmailRejected(email: Option<Value>) {
    Truthy(email) && !EmailShape(ToText(email.value))
  }

  const EmailField := "email"
  const EmployeeCountField := "employeeCount"
  const PlanNameField := "planName"
  const CarrierField := "carrier"
  const RateTiersField := "rateTiers"

  /** The checks on a truthy `generalInformation`. */
  function GeneralErrors(gi: Option<Value>): (r: seq<ImportError>)
    ensures forall e :: e in r ==> e == GeneralNotObject || e == EmailInvalid || e == EmployeeCountInvalid
    ensures |r| <= 2
  {
    if !Truthy(gi) then []
    else if !IsObjectType(gi) then [GeneralNotObject]
    else
      var email := Member(gi.value, EmailField);
      var count := Member(gi.value, EmployeeCountField);
      (if EmailRejected(email) then [EmailInvalid] else [])
      + (if count.Some? && CountRejected(count) then [EmployeeCountInvalid] else [])
  }

  /** A truthy `generalInformation` that is not an object is reported and
      nothing in it is read; inside an object, the e-mail is reported
      exactly when it is truthy and its text misses the e-mail regex, and
      the count exactly when it is present and not a non-negative number. */
  lemma GeneralErrorsIff(gi: Option<Value>)
    ensures GeneralNotObject in GeneralErrors(gi) <==> Truthy(gi) && !IsObjectType(gi)
    ensures EmailInvalid in GeneralErrors(gi) <==>
      Truthy(gi) && IsObjectType(gi)
      && var email := Member(gi.value, EmailField);
         Truthy(email) && !EmailRef(ToText(email.value))
    ensures EmployeeCountInvalid in GeneralErrors(gi) <==>
      Truthy(gi) && IsObjectType(gi)
      && var count := Member(gi.value, EmployeeCountField);
         count.Some? && !(count.value.Num? && count.value.n.units >= 0)
         && count.value != NonFinite(NaN) && count.value != NonFinite(PosInfinity)
  {
    var r := GeneralErrors(gi);
    if Truthy(gi) && IsObjectType(gi) {
      var email := Member(gi.value, EmailField);
      var count := Member(gi.value, EmployeeCountField);
      var e := if EmailRejected(email) then [EmailInvalid] else [];
      var c := if count.Some? && CountRejected(count) then [EmployeeCountInvalid] else [];
      assert r == e + c;
      if Truthy(email) { EmailShapeIsRef(ToText(email.value)); }
      if count.Some? { CountRejectedIff(count); }
    }
  }

  /** The errors of plan `i` of a list section, for a plan that is not
      `null`. */
  function PlanErrors(section: ListSection, i: nat, plan: Value): (r: seq<ImportError>)
    requires plan != Null
    ensures forall e :: e in r ==> e == NameRequired(section, i) || e == CarrierRequired(section, i) || e == RateTiersNotArray(i)
  {
    var tiers := Member(plan, RateTiersField);
    (if !Truthy(Member(plan, PlanNameField)) then [NameRequired(section, i)] else [])
    + (if !Truthy(Member(plan, CarrierField)) then [CarrierRequired(section, i)] else [])
    + (if section == MedicalPlans && Truthy(tiers) && !tiers.value.Arr? then [RateTiersNotArray(i)] else [])
  }

  /** The blocks of errors of the plans, one per plan. */
  function PlanBlocks(section: ListSection, plans: seq<Value>): (blocks: seq<seq<ImportError>>)
    requires Null !in plans
    ensures |blocks| == |plans|
  {
    seq(|plans|, k requires 0 <= k < |plans| => PlanErrors(section, k, plans[k]))
  }

  /** The `forEach` over the plans of an array section: it throws at the
      first `null` plan, and otherwise lists each plan's errors in index
      order. */
  function PlanListErrors(section: ListSection, plans: seq<Value>): (r: Checked)
    ensures r.Threw? <==> Null in plans
  {
    if Null in plans then Threw else Errors(Flat(PlanBlocks(section, plans)))
  }

  /** Within one plan's errors, the errors about plan `i` are there only
      when the plan is plan `i`. */
  lemma PlanErrorsAt(section: ListSection, k: nat, plan: Value, i: nat)
    requires plan != Null
    ensures NameRequired(section, i) in PlanErrors(section, k, plan) <==>
      k == i && !Truthy(Member(plan, PlanNameField))
    ensures CarrierRequired(section, i) in PlanErrors(section, k, plan) <==>
      k == i && !Truthy(Member(plan, CarrierField))
    ensures RateTiersNotArray(i) in PlanErrors(section, k, plan) <==>
      k == i && section == MedicalPlans
      && var tiers := Member(plan, RateTiersField); Truthy(tiers) && !tiers.value.Arr?
  {
  }

  /** An error that only block `i` can hold is in the flattened blocks
      exactly when it is in block `i`. */
  lemma FlatAt<T(!new)>(blocks: seq<seq<T>>, e: T, i: nat)
    requires forall k :: 0 <= k < |blocks| && k != i ==> e !in blocks[k]
    ensures e in Flat(blocks) <==> i < |blocks| && e in blocks[i]
  {
  }

  /** Plan `i` is reported as missing its name exactly when it exists and
      its name is falsy, as missing its carrier exactly when its carrier is
      falsy, and, in a medical list, for its tiers exactly when they are
      truthy and not an array. No other error comes from the plans. */
  lemma PlanListIff(section: ListSection, plans: seq<Value>, i: nat)
    requires Null !in plans
    ensures NameRequired(section, i) in PlanListErrors(section, plans).list <==>
      i < |plans| && !Truthy(Member(plans[i], PlanNameField))
    ensures CarrierRequired(section, i) in PlanListErrors(section, plans).list <==>
      i < |plans| && !Truthy(Member(plans[i], CarrierField))
    ensures RateTiersNotArray(i) in PlanListErrors(section, plans).list <==>
      section == MedicalPlans && i < |plans|
      && var tiers := Member(plans[i], RateTiersField); Truthy(tiers) && !tiers.value.Arr?
  {
    var blocks := PlanBlocks(section, plans);
    assert PlanListErrors(section, plans).list == Flat(blocks);
    forall k | 0 <= k < |blocks| {
      PlanErrorsAt(section, k, plans[k], i);
    }
    FlatAt(blocks, NameRequired(section, i), i);
    FlatAt(blocks, CarrierRequired(section, i), i);
    FlatAt(blocks, RateTiersNotArray(i), i);
  }

  /** An error about one plan of `section`. */
  predicate PlanError(section: ListSection, e: ImportError) {
    ((e.NameRequired? || e.CarrierRequired?) && e.section == section)
    || (e.RateTiersNotArray? && section == MedicalPlans)
  }

  /** The plans give no error other than a plan's name, carrier or tiers. */
  lemma PlanListKinds(section: ListSection, plans: seq<Value>)
    requires Null !in plans
    ensures forall e :: e in PlanListErrors(section, plans).list ==> PlanError(section, e)
  {
    var blocks := PlanBlocks(section, plans);
    assert PlanListErrors(section, plans).list == Flat(blocks);
    forall e: ImportError | e in Flat(blocks) ensures PlanError(section, e) {
      var k :| 0 <= k < |blocks| && e in blocks[k];
      assert blocks[k] == PlanErrors(section, k, plans[k]);
    }
  }

  /** The checks on a truthy `medicalPlans` or `dentalPlans`: one error when
      it is not an array, and then no plan is looked at. */
  function ListErrors(section: ListSection, x: Option<Value>): (r: Checked)
    ensures !Truthy(x) ==> r == Errors([])
    ensures Truthy(x) && !x.value.Arr? ==> r == Errors([NotAnArray(section)])
    ensures Truthy(x) && x.value.Arr? ==> r == PlanListErrors(section, x.value.items)
  {
    if !Truthy(x) then Errors([])
    else if !x.value.Arr? then Errors([NotAnArray(section)])
    else PlanListErrors(section, x.value.items)
  }

  /** `visionPlans` is only checked to be an array. */
  function VisionErrors(x: Option<Value>): (r: seq<ImportError>)
    ensures r == [] || r == [NotAnArray(VisionPlans)]
    ensures NotAnArray(VisionPlans) in r <==> Truthy(x) && !x.value.Arr?
  {
    if Truthy(x) && !x.value.Arr? then [NotAnArray(VisionPlans)] else []
  }

  const GeneralKey := "generalInformation"
  const MedicalKey := "medicalPlans"
  const DentalKey := "dentalPlans"
  const VisionKey := "visionPlans"

  /** The error lists of the five parts of an object, before they are
      joined. */
  datatype Parts = Parts(sections: seq<ImportError>, general: seq<ImportError>, medical: Checked,
                         dental: Checked, vision: seq<ImportError>)

  function PartsOf(v: Value): Parts
    requires v.Obj? || v.Arr?
  {
    Parts(if HasAnySection(v) then [] else [NoSection],
      GeneralErrors(Member(v, GeneralKey)),
      ListErrors(MedicalPlans, Member(v, MedicalKey)),
      ListErrors(DentalPlans, Member(v, DentalKey)),
      VisionErrors(Member(v, VisionKey)))
  }

  /** The error list in the order the route builds it. */
  function Joined(p: Parts): seq<ImportError>
    requires p.medical.Errors? && p.dental.Errors?
  {
    p.sections + p.general + p.medical.list + p.dental.list + p.vision
  }

  /** `validateImportData`. */
  function ImportErrors(data: Option<Value>): (r: Checked)
    ensures !(Truthy(data) && IsObjectType(data)) ==> r == Errors([NotAnObject])
    ensures r.Threw? <==>
      Truthy(data) && IsObjectType(data)
      && (HoldsNull(Member(data.value, MedicalKey)) || HoldsNull(Member(data.value, DentalKey)))
  {
    if !Truthy(data) || !IsObjectType(data) then Errors([NotAnObject])
    else
      var p := PartsOf(data.value);
      if p.medical.Threw? || p.dental.Threw? then Threw
      else Errors(Joined(p))
  }

  /** A falsy or non-object `data` gets exactly one error. */
  lemma NotObjectOnly(data: Option<Value>)
    ensures (ImportErrors(data).Errors? && NotAnObject in ImportErrors(data).list) <==> !(Truthy(data) && IsObjectType(data))
  {
    if Truthy(data) && IsObjectType(data) {
      var p := PartsOf(data.value);
      if !(p.medical.Threw? || p.dental.Threw?) {
        ListKinds(MedicalPlans, Member(data.value, MedicalKey));
        ListKinds(DentalPlans, Member(data.value, DentalKey));
        assert NotAnObject !in p.sections + p.general + p.medical.list + p.dental.list + p.vision;
      }
    }
  }

  /** A list section reports only its own type error or errors about its
      plans. */
  lemma ListKinds(section: ListSection, x: Option<Value>)
    ensures ListErrors(section, x).Errors? ==> forall e :: e in ListErrors(section, x).list ==>
      e == NotAnArray(section) || PlanError(section, e)
  {
    if Truthy(x) && x.value.Arr? && Null !in x.value.items {
      PlanListKinds(section, x.value.items);
    }
  }

  /** For an object, the "at least one valid section" error is reported
      exactly when none of the ten section names is a key of it. */
  lemma NoSectionIff(data: Option<Value>)
    requires Truthy(data) && IsObjectType(data) && ImportErrors(data).Errors?
    ensures NoSection in ImportErrors(data).list <==> !HasAnySection(data.value)
  {
    var p := PartsOf(data.value);
    ListKinds(MedicalPlans, Member(data.value, MedicalKey));
    ListKinds(DentalPlans, Member(data.value, DentalKey));
    assert NoSection !in p.general + p.medical.list + p.dental.list + p.vision;
  }

  /** `{}` gets exactly the "at least one valid section" error. */
  lemma EmptyObjectErrors()
    ensures ImportErrors(Some(Obj([]))) == Errors([NoSection])
  {
    assert !HasAnySection(Obj([]));
  }

  /** Sections are found by key, whatever they hold: an object whose only
      key is `timeOff`, bound to `null`, passes. */
  lemma KeyPresenceSuffices()
    ensures ImportErrors(Some(Obj([("timeOff", Null)]))) == Errors([])
  {
    var v := Obj([("timeOff", Null)]);
    assert v.fields[0].0 == ExpectedSections[6];
    assert HasKey(v, ExpectedSections[6]);
    assert Member(v, GeneralKey).None?;
    assert Member(v, MedicalKey).None?;
    assert Member(v, DentalKey).None?;
    assert Member(v, VisionKey).None?;
  }

  /** A list section that is an array holding `null`, on which the
      `forEach` throws. */
  predicate HoldsNull(x: Option<Value>) {
    x.Some? && x.value.Arr? && Null in x.value.items
  }

  /** Each part reports only errors of its own kind. */
  predicate WellKinded(p: Parts)
    requires p.medical.Errors? && p.dental.Errors?
  {
    (forall e :: e in p.sections ==> e == NoSection)
    && (forall e :: e in p.general ==> e == GeneralNotObject || e == EmailInvalid || e == EmployeeCountInvalid)
    && (forall e :: e in p.medical.list ==> e == NotAnArray(MedicalPlans) || PlanError(MedicalPlans, e))
    && (forall e :: e in p.dental.list ==> e == NotAnArray(DentalPlans) || PlanError(DentalPlans, e))
    && (forall e :: e in p.vision ==> e == NotAnArray(VisionPlans))
  }

  lemma PartsKinds(v: Value)
    requires (v.Obj? || v.Arr?) && PartsOf(v).medical.Errors? && PartsOf(v).dental.Errors?
    ensures WellKinded(PartsOf(v))
  {
    ListKinds(MedicalPlans, Member(v, MedicalKey));
    ListKinds(DentalPlans, Member(v, DentalKey));
  }

  /** In the joined list, an error of one part's kind is there exactly
      when that part reports it. */
  lemma JoinedAt(p: Parts, e: ImportError)
    requires p.medical.Errors? && p.dental.Errors? && WellKinded(p)
    ensures e == NoSection ==> (e in Joined(p) <==> e in p.sections)
    ensures e == GeneralNotObject || e == EmailInvalid || e == EmployeeCountInvalid ==> (e in Joined(p) <==> e in p.general)
    ensures e == NotAnArray(MedicalPlans) || (PlanError(MedicalPlans, e) && !PlanError(DentalPlans, e)) ==> (e in Joined(p) <==> e in p.medical.list)
    ensures e == NotAnArray(DentalPlans) || (PlanError(DentalPlans, e) && !PlanError(MedicalPlans, e)) ==> (e in Joined(p) <==> e in p.dental.list)
    ensures e == NotAnArray(VisionPlans) ==> (e in Joined(p) <==> e in p.vision)
  {
  }

  lemma JoinedMedical(p: Parts, e: ImportError)
    requires p.medical.Errors? && p.dental.Errors? && WellKinded(p)
    requires e == NotAnArray(MedicalPlans) || (PlanError(MedicalPlans, e) && !PlanError(DentalPlans, e))
    ensures e in Joined(p) <==> e in p.medical.list
  {
    JoinedAt(p, e);
  }

  /** The error list of an object that does not throw is its parts,
      joined. */
  lemma ImportJoined(data: Option<Value>)
    requires Truthy(data) && IsObjectType(data) && ImportErrors(data).Errors?
    ensures PartsOf(data.value).medical.Errors? && PartsOf(data.value).dental.Errors?
    ensures WellKinded(PartsOf(data.value))
    ensures ImportErrors(data).list == Joined(PartsOf(data.value))
  {
    PartsKinds(data.value);
  }

  /** Inside an object, the general-information errors reported are those of
      `generalInformation` alone. */
  lemma ImportGeneralIff(data: Option<Value>, e: ImportError)
    requires Truthy(data) && IsObjectType(data) && ImportErrors(data).Errors?
    requires e == GeneralNotObject || e == EmailInvalid || e == EmployeeCountInvalid
    ensures e in ImportErrors(data).list <==> e in GeneralErrors(Member(data.value, GeneralKey))
  {
    ImportJoined(data);
    JoinedAt(PartsOf(data.value), e);
  }

  /** The other list section with plans. */
  function OtherSection(section: ListSection): ListSection {
    if section == MedicalPlans then DentalPlans else MedicalPlans
  }

  /** Inside an object whose `medicalPlans` (or `dentalPlans`) is an array,
      an error about one of its plans is reported exactly when the plan
      checks report it. */
  lemma ImportPlanPart(data: Option<Value>, section: ListSection, e: ImportError)
    requires Truthy(data) && IsObjectType(data) && ImportErrors(data).Errors?
    requires section != VisionPlans
    requires var x := Member(data.value, SectionKey(section)); x.Some? && x.value.Arr?
    requires PlanError(section, e) && !PlanError(OtherSection(section), e)
    ensures Null !in Member(data.value, SectionKey(section)).value.items
    ensures e in ImportErrors(data).list <==> e in PlanListErrors(section, Member(data.value, SectionKey(section)).value.items).list
  {
    var v := data.value;
    var p := PartsOf(v);
    ImportJoined(data);
    JoinedAt(p, e);
    if section == MedicalPlans {
      assert p.medical == ListErrors(MedicalPlans, Member(v, SectionKey(section)));
    } else {
      assert p.dental == ListErrors(DentalPlans, Member(v, SectionKey(section)));
    }
  }

  /** Plan `i` of an array `medicalPlans` or `dentalPlans` is reported as
      missing its name exactly when it exists and its `planName` is
      falsy. */
  lemma ImportNameIff(data: Option<Value>, section: ListSection, i: nat)
    requires Truthy(data) && IsObjectType(data) && ImportErrors(data).Errors?
    requires section != VisionPlans
    requires var x := Member(data.value, SectionKey(section)); x.Some? && x.value.Arr?
    ensures var plans := Member(data.value, SectionKey(section)).value.items;
      NameRequired(section, i) in ImportErrors(data).list <==> i < |plans| && !Truthy(Member(plans[i], PlanNameField))
  {
    ImportPlanPart(data, section, NameRequired(section, i));
    PlanListIff(section, Member(data.value, SectionKey(section)).value.items, i);
  }

  /** Plan `i` is reported as missing its carrier exactly when it exists and
      its `carrier` is falsy. */
  lemma ImportCarrierIff(data: Option<Value>, section: ListSection, i: nat)
    requires Truthy(data) && IsObjectType(data) && ImportErrors(data).Errors?
    requires section != VisionPlans
    requires var x := Member(data.value, SectionKey(section)); x.Some? && x.value.Arr?
    ensures var plans := Member(data.value, SectionKey(section)).value.items;
      CarrierRequired(section, i) in ImportErrors(data).list <==> i < |plans| && !Truthy(Member(plans[i], CarrierField))
  {
    ImportPlanPart(data, section, CarrierRequired(section, i));
    PlanListIff(section, Member(data.value, SectionKey(section)).value.items, i);
  }

  /** Medical plan `i` is reported for its tiers exactly when it exists and
      its `rateTiers` is truthy and not an array. */
  lemma ImportTiersIff(data: Option<Value>, i: nat)
    requires Truthy(data) && IsObjectType(data) && ImportErrors(data).Errors?
    requires var x := Member(data.value, MedicalKey); x.Some? && x.value.Arr?
    ensures var plans := Member(data.value, MedicalKey).value.items;
      RateTiersNotArray(i) in ImportErrors(data).list <==>
        i < |plans| && var tiers := Member(plans[i], RateTiersField); Truthy(tiers) && !tiers.value.Arr?
  {
    assert SectionKey(MedicalPlans) == MedicalKey;
    ImportPlanPart(data, MedicalPlans, RateTiersNotArray(i));
    PlanListIff(MedicalPlans, Member(data.value, MedicalKey).value.items, i);
  }

  /** A truthy `medicalPlans` that is not an array is reported once, and no
      plan of it is checked. */
  lemma MedicalNotArray(data: Option<Value>, i: nat)
    requires Truthy(data) && IsObjectType(data) && ImportErrors(data).Errors?
    requires var x := Member(data.value, MedicalKey); Truthy(x) && !x.value.Arr?
    ensures NotAnArray(MedicalPlans) in ImportErrors(data).list
    ensures NameRequired(MedicalPlans, i) !in ImportErrors(data).list
    ensures CarrierRequired(MedicalPlans, i) !in ImportErrors(data).list
    ensures RateTiersNotArray(i) !in ImportErrors(data).list
  {
    var p := PartsOf(data.value);
    ImportJoined(data);
    assert p.medical.list == [NotAnArray(MedicalPlans)];
    JoinedMedical(p, NotAnArray(MedicalPlans));
    JoinedMedical(p, NameRequired(MedicalPlans, i));
    JoinedMedical(p, CarrierRequired(MedicalPlans, i));
    JoinedMedical(p, RateTiersNotArray(i));
  }

  /** `visionPlans` is reported exactly when it is truthy and not an
      array. */
  lemma ImportVisionIff(data: Option<Value>)
    requires Truthy(data) && IsObjectType(data) && ImportErrors(data).Errors?
    ensures NotAnArray(VisionPlans) in ImportErrors(data).list <==>
      var x := Member(data.value, VisionKey); Truthy(x) && !x.value.Arr?
  {
    ImportJoined(data);
    JoinedAt(PartsOf(data.value), NotAnArray(VisionPlans));
  }

  // The gate in `POST` (app/api/surveys/import/route.ts:42-87).

  /** The answers of `POST` once the caller is authenticated and belongs to
      an organisation. */
  datatype ImportResponse =
    | BadRequest(validationErrors: seq<string>)          // 400, nothing stored
    | Created(data: Value)                               // 201, `data` inserted as a draft
    | Reviewed(data: Value, validationErrors: seq<string>) // 200, nothing stored
    | ServerError                                        // 500

  function Texts(es: seq<ImportError>): (r: seq<string>)
    ensures |r| == |es|
    ensures forall i :: 0 <= i < |es| ==> r[i] == ErrorText(es[i])
  {
    seq(|es|, i requires 0 <= i < |es| => ErrorText(es[i]))
  }

  /** `POST` from the structural check on: 400 with the error strings when
      there is any, otherwise an insert when `createNew` (default `true`) is
      truthy, otherwise the data handed back for review. A throw inside the
      check is caught and answered with 500. */
  function ImportPost(surveyData: Option<Value>, createNew: Option<Value>): (r: ImportResponse)
    ensures r.ServerError? <==> ImportErrors(surveyData).Threw?
    ensures r.BadRequest? <==> ImportErrors(surveyData).Errors? && |ImportErrors(surveyData).list| > 0
    ensures r.BadRequest? ==> r.validationErrors == Texts(ImportErrors(surveyData).list)
    ensures r.Created? || r.Reviewed? ==> ImportErrors(surveyData) == Errors([]) && surveyData == Some(r.data)
    ensures r.Created? <==> ImportErrors(surveyData) == Errors([]) && (createNew.None? || Truthy(createNew))
    ensures r.Reviewed? ==> r.validationErrors == []
  {
    var checked := ImportErrors(surveyData);
    if checked.Threw? then ServerError
    else if |checked.list| > 0 then BadRequest(Texts(checked.list))
    else if createNew.None? || Truthy(createNew) then Created(surveyData.value)
    else Reviewed(surveyData.value, Texts(checked.list))
  }

  /** Whatever is inserted is a truthy object holding at least one section
      key. */
  lemma CreatedHasSection(surveyData: Option<Value>, createNew: Option<Value>)
    requires ImportPost(surveyData, createNew).Created?
    ensures Truthy(surveyData) && IsObjectType(surveyData) && HasAnySection(surveyData.value)
  {
    NoSectionIff(surveyData);
  }

  /** The import check does not trim: a plan name of white space only is
      truthy and passes here, while the submission validator counts it as
      blank. */
  lemma NoTrimming(s: string, section: ListSection, i: nat)
    requires |s| > 0 && AllSpace(s)
    ensures NameRequired(section, i) !in PlanErrors(section, i, Obj([(PlanNameField, Str(s))]))
    ensures Validation.Blank(Some(s))
  {
    assert Member(Obj([(PlanNameField, Str(s))]), PlanNameField) == Some(Str(s));
  }

  /** Both checks test a non-blank e-mail string with the same regex; an
      e-mail of white space only is a format error here and a missing value
      for the submission validator. */
  lemma SameEmailRegex(s: string)
    ensures var gi := Some(Obj([(EmailField, Str(s))]));
      EmailInvalid in GeneralErrors(gi) <==> |s| > 0 && !EmailShape(s)
    ensures |s| > 0 && AllSpace(s) ==> EmailInvalid in GeneralErrors(Some(Obj([(EmailField, Str(s))]))) && Validation.Blank(Some(s))
  {
    var gi := Some(Obj([(EmailField, Str(s))]));
    assert Member(gi.value, EmailField) == Some(Str(s));
    GeneralErrorsIff(gi);
    EmailShapeIsRef(s);
    if |s| > 0 && AllSpace(s) {
      assert !EmailChar(s[0]);
    }
  }
}
