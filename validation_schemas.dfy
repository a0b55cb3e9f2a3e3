/**
 * The permit wizard's form schemas (`src/lib/validationSchemas.ts`) as parse
 * functions. A string field declared with `.trim()` is checked after trimming
 * and comes out trimmed; `min`/`max` count UTF-16 code units; the patterns
 * are the scanners of the Text module.
 *
 * A failed parse reports the set of top-level fields that failed. The message
 * texts are not modelled.
 */
module ValidationSchemas {
  import opened Wrappers
  import opened Text
  import opened ApplicationData
  import PermitStore

  /** The top-level form fields a schema can report. */
  datatype Field =
    | FacilityName | OperatorName | FacilityAddress | County | Latitude | Longitude
    | RegulatedEntityNumber | IndustryType
    | PrimaryOperations | EmissionUnits | EstimatedAnnualEmissions
    | MonitoringRequirements | ComplianceMethod

  const IndustryTypes: seq<string> := ["petrochemical", "manufacturing", "power_generation", "refining", "chemical", "other"]
  const UnitTypes: seq<string> := ["storage_tank", "combustion_source", "process_vent", "fugitive", "other"]
  const ComplianceMethods: seq<string> := ["continuous", "periodic", "predictive", "parametric"]

  /** `.min(lo).max(hi)` on a string. */
  predicate LengthBetween(s: string, lo: nat, hi: nat) { lo <= JsLength(s) <= hi }

  /** `/^-?\d{1,2}\.\d+$/` */
  predicate IsLatitude(s: string) { MatchesDecimal(s, 2) }

  /** `/^-?\d{1,3}\.\d+$/` */
  predicate IsLongitude(s: string) { MatchesDecimal(s, 3) }

  /** `/^RN\d{9}$/` */
  predicate IsRegulatedEntityNumber(s: string) {
    |s| == 11 && s[..2] == "RN" && AllDigits(s[2..])
  }

  // ---------------------------------------------------------------- step 1

  predicate FacilityNameOk(s: string) { LengthBetween(JsTrim(s), 3, 100) }
  predicate OperatorNameOk(s: string) { LengthBetween(JsTrim(s), 2, 100) }
  predicate FacilityAddressOk(s: string) { LengthBetween(JsTrim(s), 10, 200) }
  /** Not trimmed: a county of spaces passes. */
  predicate CountyOk(s: string) { JsLength(s) >= 1 }
  predicate LatitudeOk(s: string) { JsLength(JsTrim(s)) >= 1 && IsLatitude(JsTrim(s)) }
  predicate LongitudeOk(s: string) { JsLength(JsTrim(s)) >= 1 && IsLongitude(JsTrim(s)) }
  predicate RegulatedEntityNumberOk(s: string) { JsLength(JsTrim(s)) >= 1 && IsRegulatedEntityNumber(JsTrim(s)) }
  predicate IndustryTypeOk(s: string) { s in IndustryTypes }

  const FacilityFields: set<Field> :=
    {FacilityName, OperatorName, FacilityAddress, County, Latitude, Longitude, RegulatedEntityNumber, IndustryType}

  /** The check `facilityStepSchema` makes on one field. */
  predicate FacilityFieldOk(f: PermitStore.FacilityInfo, field: Field) {
    match field
    case FacilityName => FacilityNameOk(f.facilityName)
    case OperatorName => OperatorNameOk(f.operatorName)
    case FacilityAddress => FacilityAddressOk(f.facilityAddress)
    case County => CountyOk(f.county)
    case Latitude => LatitudeOk(f.latitude)
    case Longitude => LongitudeOk(f.longitude)
    case RegulatedEntityNumber => RegulatedEntityNumberOk(f.regulatedEntityNumber)
    case IndustryType => IndustryTypeOk(f.industryType)
    case _ => true
  }

  /** The fields of `facilityStepSchema` that fail. */
  function FacilityErrors(f: PermitStore.FacilityInfo): set<Field> {
    set field | field in FacilityFields && !FacilityFieldOk(f, field)
  }

  /** The record with every `.trim()` field trimmed; `county` and the enum are left alone. */
  function TrimFacility(f: PermitStore.FacilityInfo): (g: PermitStore.FacilityInfo)
    ensures g.county == f.county && g.industryType == f.industryType
  {
    f.(
      facilityName := JsTrim(f.facilityName),
      operatorName := JsTrim(f.operatorName),
      facilityAddress := JsTrim(f.facilityAddress),
      latitude := JsTrim(f.latitude),
      longitude := JsTrim(f.longitude),
      regulatedEntityNumber := JsTrim(f.regulatedEntityNumber))
  }

  /** Trimming twice is trimming once. */
  lemma {:induction false} TrimFacilityIdempotent(f: PermitStore.FacilityInfo)
    ensures TrimFacility(TrimFacility(f)) == TrimFacility(f)
  {
    TrimIdempotent(f.facilityName, IsJsWhitespace);
    TrimIdempotent(f.operatorName, IsJsWhitespace);
    TrimIdempotent(f.facilityAddress, IsJsWhitespace);
    TrimIdempotent(f.latitude, IsJsWhitespace);
    TrimIdempotent(f.longitude, IsJsWhitespace);
    TrimIdempotent(f.regulatedEntityNumber, IsJsWhitespace);
  }

  /** Every check already looks at the trimmed text, so trimming first changes no verdict. */
  lemma {:induction false} TrimFacilityKeepsVerdicts(f: PermitStore.FacilityInfo)
    ensures forall field :: FacilityFieldOk(TrimFacility(f), field) == FacilityFieldOk(f, field)
  {
    var g := TrimFacility(f);
    forall field ensures FacilityFieldOk(g, field) == FacilityFieldOk(f, field) {
      match field
      case FacilityName => TrimIdempotent(f.facilityName, IsJsWhitespace);
      case OperatorName => TrimIdempotent(f.operatorName, IsJsWhitespace);
      case FacilityAddress => TrimIdempotent(f.facilityAddress, IsJsWhitespace);
      case Latitude => TrimIdempotent(f.latitude, IsJsWhitespace);
      case Longitude => TrimIdempotent(f.longitude, IsJsWhitespace);
      case RegulatedEntityNumber => TrimIdempotent(f.regulatedEntityNumber, IsJsWhitespace);
      case _ =>
    }
  }

  /** `facilityStepSchema.parse`: the trimmed record when every field passes, else the failing fields. */
  function ParseFacility(f: PermitStore.FacilityInfo): (r: Result<PermitStore.FacilityInfo, set<Field>>)
    ensures r.Success? <==> forall field :: field in FacilityFields ==> FacilityFieldOk(f, field)
    ensures r.Failure? ==> r.error != {} && forall field :: field in r.error <==> field in FacilityFields && !FacilityFieldOk(f, field)
    ensures r.Success? ==> r.value == TrimFacility(f) && forall field :: FacilityFieldOk(r.value, field)
  {
    var errors := FacilityErrors(f);
    if errors != {} then Failure(errors)
    else
      assert forall field :: FacilityFieldOk(f, field) by {
        forall field ensures FacilityFieldOk(f, field) {
          if field in FacilityFields { assert field !in errors; }
        }
      }
      TrimFacilityKeepsVerdicts(f);
      Success(TrimFacility(f))
  }

  /** What the schema returns, it accepts again unchanged. */
  lemma ParseFacilityIdempotent(f: PermitStore.FacilityInfo)
    requires ParseFacility(f).Success?
    ensures ParseFacility(ParseFacility(f).value) == ParseFacility(f)
  {
    TrimFacilityIdempotent(f);
  }

  /** The store's empty start record fails every step 1 field, the unset industry type included. */
  lemma InitialFacilityRejected()
    ensures FacilityErrors(PermitStore.InitialData.facility) == FacilityFields
  {
    var f := PermitStore.InitialData.facility;
    assert JsTrim("") == "";
    assert !IsLatitude("") && !IsLongitude("");
    assert "" !in IndustryTypes;
  }

  /** The examples the schema's own messages give are accepted. */
  lemma MessageExamplesAccepted()
    ensures IsLatitude("29.738333")
    ensures IsLongitude("-95.168056")
    ensures IsRegulatedEntityNumber("RN123456789")
  {
    LatitudeExampleAccepted();
    LongitudeExampleAccepted();
    RegulatedEntityNumberExampleAccepted();
  }

  lemma RegulatedEntityNumberExampleAccepted()
    ensures IsRegulatedEntityNumber("RN123456789")
  {
    var s := "RN123456789";
    assert s == "RN" + "123456789";
    assert s[..2] == "RN" && s[2..] == "123456789";
  }

  lemma LatitudeExampleAccepted()
    ensures IsLatitude("29.738333")
  {
    assert DecimalParts("", "29", "738333", 2);
    assert "29.738333" == "" + "29" + "." + "738333";
    ShapeMatchesDecimal("29.738333", 2);
  }

  lemma LongitudeExampleAccepted()
    ensures IsLongitude("-95.168056")
  {
    assert DecimalParts("-", "95", "168056", 3);
    assert "-95.168056" == "-" + "95" + "." + "168056";
    ShapeMatchesDecimal("-95.168056", 3);
  }

  // ---------------------------------------------------------------- step 2

  predicate UnitValid(u: EmissionUnit) {
    u.unitType in UnitTypes && LengthBetween(JsTrim(u.description), 10, 200) && |u.pollutants| >= 1
  }

  function TrimUnit(u: EmissionUnit): (v: EmissionUnit)
    ensures v.description == JsTrim(u.description)
    ensures v.id == u.id && v.unitType == u.unitType && v.pollutants == u.pollutants && v.controlDevice == u.controlDevice
  {
    u.(description := JsTrim(u.description))
  }

  /** The unit list as the schema returns it: each description trimmed. */
  function TrimUnits(units: seq<EmissionUnit>): (r: seq<EmissionUnit>)
    ensures |r| == |units|
    ensures forall i :: 0 <= i < |units| ==> r[i] == TrimUnit(units[i])
    ensures (forall i :: 0 <= i < |units| ==> UnitValid(units[i])) ==> forall i :: 0 <= i < |r| ==> UnitValid(r[i])
  {
    if units == [] then []
    else
      TrimIdempotent(units[0].description, IsJsWhitespace);
      [TrimUnit(units[0])] + TrimUnits(units[1..])
  }

  predicate PrimaryOperationsOk(s: string) { LengthBetween(JsTrim(s), 20, 500) }
  predicate UnitsOk(units: seq<EmissionUnit>) { |units| >= 1 && forall i :: 0 <= i < |units| ==> UnitValid(units[i]) }
  predicate EstimateOk(s: string) { JsLength(JsTrim(s)) >= 1 }

  const EmissionFields: set<Field> := {PrimaryOperations, EmissionUnits, EstimatedAnnualEmissions}

  predicate EmissionFieldOk(e: EmissionInfo, field: Field) {
    match field
    case PrimaryOperations => PrimaryOperationsOk(e.primaryOperations)
    case EmissionUnits => UnitsOk(e.emissionUnits)
    case EstimatedAnnualEmissions => EstimateOk(e.estimatedAnnualEmissions)
    case _ => true
  }

  /** The fields of `emissionUnitsStepSchema` that fail; a bad unit is reported on the unit list. */
  function EmissionErrors(e: EmissionInfo): set<Field> {
    set field | field in EmissionFields && !EmissionFieldOk(e, field)
  }

  function TrimEmission(e: EmissionInfo): (g: EmissionInfo)
    ensures g.hasVOCStorage == e.hasVOCStorage && g.hasParticulates == e.hasParticulates
    ensures g.hasCombustionSources == e.hasCombustionSources
  {
    e.(
      primaryOperations := JsTrim(e.primaryOperations),
      emissionUnits := TrimUnits(e.emissionUnits),
      estimatedAnnualEmissions := JsTrim(e.estimatedAnnualEmissions))
  }

  lemma {:induction false} TrimEmissionKeepsVerdicts(e: EmissionInfo)
    ensures forall field :: EmissionFieldOk(e, field) ==> EmissionFieldOk(TrimEmission(e), field)
  {
    TrimIdempotent(e.primaryOperations, IsJsWhitespace);
    TrimIdempotent(e.estimatedAnnualEmissions, IsJsWhitespace);
  }

  /** `emissionUnitsStepSchema.parse` */
  function ParseEmission(e: EmissionInfo): (r: Result<EmissionInfo, set<Field>>)
    ensures r.Success? <==> forall field :: field in EmissionFields ==> EmissionFieldOk(e, field)
    ensures r.Failure? ==> r.error != {} && forall field :: field in r.error <==> field in EmissionFields && !EmissionFieldOk(e, field)
    ensures r.Success? ==> r.value == TrimEmission(e) && forall field :: EmissionFieldOk(r.value, field)
  {
    var errors := EmissionErrors(e);
    if errors != {} then Failure(errors)
    else
      assert forall field :: EmissionFieldOk(e, field) by {
        forall field ensures EmissionFieldOk(e, field) {
          if field in EmissionFields { assert field !in errors; }
        }
      }
      TrimEmissionKeepsVerdicts(e);
      Success(TrimEmission(e))
  }

  /** The emission step's start values (no units, empty texts) fail on all three checked fields. */
  lemma InitialEmissionRejected()
    ensures EmissionErrors(InitialEmission) == EmissionFields
  {
    assert JsTrim("") == "";
  }

  // ---------------------------------------------------------------- step 3

  /** The step 3 form values; `complianceMethod` is unset (`undefined`) until chosen. */
  datatype ComplianceForm = ComplianceForm(
    subjectToNSR: bool,
    hasRiskManagementPlan: bool,
    monitoringRequirements: seq<string>,
    complianceMethod: Option<string>,
    stratosphericOzoneCompliance: bool)

  const ComplianceFields: set<Field> := {MonitoringRequirements, ComplianceMethod}

  predicate ComplianceFieldOk(c: ComplianceForm, field: Field) {
    match field
    case MonitoringRequirements => |c.monitoringRequirements| >= 1
    case ComplianceMethod => c.complianceMethod.Some? && c.complianceMethod.value in ComplianceMethods
    case _ => true
  }

  function ComplianceErrors(c: ComplianceForm): set<Field> {
    set field | field in ComplianceFields && !ComplianceFieldOk(c, field)
  }

  /** `complianceStepSchema.parse`: nothing is trimmed, the method becomes a definite value. */
  function ParseCompliance(c: ComplianceForm): (r: Result<ComplianceInfo, set<Field>>)
    ensures r.Success? <==> |c.monitoringRequirements| >= 1 && c.complianceMethod.Some? && c.complianceMethod.value in ComplianceMethods
    ensures r.Failure? ==> r.error != {} && forall field :: field in r.error <==> field in ComplianceFields && !ComplianceFieldOk(c, field)
    ensures r.Success? ==>
      && c.complianceMethod == Some(r.value.complianceMethod)
      && r.value.monitoringRequirements == c.monitoringRequirements
      && r.value.subjectToNSR == c.subjectToNSR && r.value.hasRiskManagementPlan == c.hasRiskManagementPlan
      && r.value.stratosphericOzoneCompliance == c.stratosphericOzoneCompliance
  {
    var errors := ComplianceErrors(c);
    if errors != {} then Failure(errors)
    else
      assert MonitoringRequirements !in errors && ComplianceMethod !in errors;
      Success(ComplianceInfo(c.subjectToNSR, c.hasRiskManagementPlan, c.monitoringRequirements,
                             c.complianceMethod.value, c.stratosphericOzoneCompliance))
  }

  // ---------------------------------------------------------------- step 4

  /**
   * `additionalRequirementsStepSchema.parse`: three booleans, no constraint, so
   * every input passes. The schema is exported but no step component parses
   * with it; step 4 submits its form values as they stand.
   */
  function ParseAdditional(a: AdditionalInfo): (r: Result<AdditionalInfo, set<Field>>)
    ensures r == Success(a)
  {
    Success(a)
  }
}
