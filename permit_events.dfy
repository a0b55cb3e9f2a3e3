/**
 * The permit suggestion events (`backend/aiui_mcp/wizard_events.py`): twenty-four
 * event classes over a common base, each pinning its `event_type`, `step` and
 * `field_name` to literals and constraining the suggested value, joined in the
 * `SuggestionEvent` union. Every suggestion, the checkbox ones included, is a
 * string, and `reasoning` is required.
 *
 * Python's `len` (what `min_length`/`max_length` count) is `|s|`.
 */
module PermitEvents {
  import opened Wrappers
  import opened Text
  import AISuggestions
  import ValidationSchemas
  import StepWiring
  import PermitEmissionUnitsStep

  datatype WizardStep = Facility | Emissions | Compliance | Additional

  function StepValue(s: WizardStep): string {
    match s
    case Facility => "facility"
    case Emissions => "emissions"
    case Compliance => "compliance"
    case Additional => "additional"
  }

  const IndustryTypes: seq<string> := ["petrochemical", "manufacturing", "power_generation", "refining", "chemical", "other"]
  const EmissionUnitTypes: seq<string> := ["storage_tank", "combustion_source", "process_vent", "fugitive", "other"]
  const ComplianceMethodTypes: seq<string> := ["continuous", "periodic", "predictive", "parametric"]

  /** The members of the `SuggestionEvent` union. */
  datatype EventKind =
    | FacilityName | OperatorName | County | IndustryType
    | PrimaryOperations | EstimatedEmissions | Latitude | Longitude
    | RegulatedEntityNumber | UnitType | UnitDescription | ControlDevice
    | Pollutants | HasVOCStorage | HasParticulates | HasCombustionSources
    | ComplianceMethod | SubjectToNSR | HasRiskManagementPlan | MonitoringRequirements
    | StratosphericOzoneCompliance | EmissionCreditsUsed | VolatileOrganicCompounds | SubscribeToUpdates

  /** The union, in its declared order. */
  const Kinds: seq<EventKind> := [
    FacilityName, OperatorName, County, Latitude,
    Longitude, RegulatedEntityNumber, IndustryType, PrimaryOperations,
    UnitType, UnitDescription, ControlDevice, Pollutants,
    HasVOCStorage, HasParticulates, HasCombustionSources, EstimatedEmissions,
    ComplianceMethod, SubjectToNSR, HasRiskManagementPlan, MonitoringRequirements,
    StratosphericOzoneCompliance, EmissionCreditsUsed, VolatileOrganicCompounds, SubscribeToUpdates
  ]

  /** Each class's `event_type` literal without its `_suggestion` ending. */
  function Stem(k: EventKind): string {
    match k
    case FacilityName => "facility_name"
    case OperatorName => "operator_name"
    case County => "county"
    case IndustryType => "industry_type"
    case PrimaryOperations => "primary_operations"
    case EstimatedEmissions => "estimated_emissions"
    case Latitude => "latitude"
    case Longitude => "longitude"
    case RegulatedEntityNumber => "regulated_entity_number"
    case UnitType => "unit_type"
    case UnitDescription => "unit_description"
    case ControlDevice => "control_device"
    case Pollutants => "pollutants"
    case HasVOCStorage => "has_voc_storage"
    case HasParticulates => "has_particulates"
    case HasCombustionSources => "has_combustion_sources"
    case ComplianceMethod => "compliance_method"
    case SubjectToNSR => "subject_to_nsr"
    case HasRiskManagementPlan => "has_risk_management_plan"
    case MonitoringRequirements => "monitoring_requirements"
    case StratosphericOzoneCompliance => "stratospheric_ozone_compliance"
    case EmissionCreditsUsed => "emission_credits_used"
    case VolatileOrganicCompounds => "volatile_organic_compounds"
    case SubscribeToUpdates => "subscribe_to_updates"
  }

  /** Each class's `event_type` literal: its stem followed by `_suggestion`. */
  function EventType(k: EventKind): string {
    Stem(k) + AISuggestions.SuggestionSuffix
  }

  /** Each class's `field_name` literal: the form's own key for the field. */
  function FieldName(k: EventKind): string {
    match k
    case FacilityName => "facilityName"
    case OperatorName => "operatorName"
    case County => "county"
    case IndustryType => "industryType"
    case PrimaryOperations => "primaryOperations"
    case EstimatedEmissions => "estimatedAnnualEmissions"
    case Latitude => "latitude"
    case Longitude => "longitude"
    case RegulatedEntityNumber => "regulatedEntityNumber"
    case UnitType => "unitType"
    case UnitDescription => "description"
    case ControlDevice => "controlDevice"
    case Pollutants => "pollutants"
    case HasVOCStorage => "hasVOCStorage"
    case HasParticulates => "hasParticulates"
    case HasCombustionSources => "hasCombustionSources"
    case ComplianceMethod => "complianceMethod"
    case SubjectToNSR => "subjectToNSR"
    case HasRiskManagementPlan => "hasRiskManagementPlan"
    case MonitoringRequirements => "monitoringRequirements"
    case StratosphericOzoneCompliance => "stratosphericOzoneCompliance"
    case EmissionCreditsUsed => "emissionCreditsUsed"
    case VolatileOrganicCompounds => "volatileOrganicCompounds"
    case SubscribeToUpdates => "subscribeToUpdates"
  }

  /** Each class's `step` literal. */
  function Step(k: EventKind): WizardStep {
    match k
    case FacilityName | OperatorName | County | IndustryType | Latitude | Longitude | RegulatedEntityNumber => Facility
    case PrimaryOperations | EstimatedEmissions | UnitType | UnitDescription | ControlDevice | Pollutants
      | HasVOCStorage | HasParticulates | HasCombustionSources => Emissions
    case ComplianceMethod | SubjectToNSR | HasRiskManagementPlan | MonitoringRequirements
      | StratosphericOzoneCompliance => Compliance
    case EmissionCreditsUsed | VolatileOrganicCompounds | SubscribeToUpdates => Additional
  }

  /** The classes for checkbox fields, whose suggestion is a boolean written as a string. */
  predicate IsFlagKind(k: EventKind) {
    k in {HasVOCStorage, HasParticulates, HasCombustionSources, SubjectToNSR, HasRiskManagementPlan, StratosphericOzoneCompliance, EmissionCreditsUsed, VolatileOrganicCompounds, SubscribeToUpdates}
  }

  /** The constraint each class puts on `suggestion`. */
  predicate SuggestionOk(k: EventKind, s: string) {
    match k
    case FacilityName => 3 <= |s| <= 100
    case OperatorName => 2 <= |s| <= 100
    case IndustryType => s in IndustryTypes
    case PrimaryOperations => 20 <= |s| <= 500
    case UnitType => s in EmissionUnitTypes
    case UnitDescription => 10 <= |s| <= 200
    case ComplianceMethod => s in ComplianceMethodTypes
    case _ => true
  }

  /** A validated event; `reasoning` is required. */
  datatype Event = Event(kind: EventKind, suggestion: string, reasoning: string)

  /** What one class demands of an incoming event besides `reasoning`. */
  predicate Accepts(k: EventKind, eventType: string, step: string, fieldName: string, suggestion: string) {
    EventType(k) == eventType && StepValue(Step(k)) == step && FieldName(k) == fieldName && SuggestionOk(k, suggestion)
  }

  /** Every class of the union is listed in it. */
  lemma EveryKindListed(k: EventKind)
    ensures k in Kinds
  {
    match k
    case FacilityName => assert Kinds[0] == k;
    case OperatorName => assert Kinds[1] == k;
    case County => assert Kinds[2] == k;
    case Latitude => assert Kinds[3] == k;
    case Longitude => assert Kinds[4] == k;
    case RegulatedEntityNumber => assert Kinds[5] == k;
    case IndustryType => assert Kinds[6] == k;
    case PrimaryOperations => assert Kinds[7] == k;
    case UnitType => assert Kinds[8] == k;
    case UnitDescription => assert Kinds[9] == k;
    case ControlDevice => assert Kinds[10] == k;
    case Pollutants => assert Kinds[11] == k;
    case HasVOCStorage => assert Kinds[12] == k;
    case HasParticulates => assert Kinds[13] == k;
    case HasCombustionSources => assert Kinds[14] == k;
    case EstimatedEmissions => assert Kinds[15] == k;
    case ComplianceMethod => assert Kinds[16] == k;
    case SubjectToNSR => assert Kinds[17] == k;
    case HasRiskManagementPlan => assert Kinds[18] == k;
    case MonitoringRequirements => assert Kinds[19] == k;
    case StratosphericOzoneCompliance => assert Kinds[20] == k;
    case EmissionCreditsUsed => assert Kinds[21] == k;
    case VolatileOrganicCompounds => assert Kinds[22] == k;
    case SubscribeToUpdates => assert Kinds[23] == k;
  }

  /** The union lists each of the twenty-four classes exactly once. */
  lemma UnionListsEveryClassOnce()
    ensures |Kinds| == 24
    ensures forall k :: k in Kinds
    ensures forall i, j :: 0 <= i < j < |Kinds| ==> Kinds[i] != Kinds[j]
  {
    forall k ensures k in Kinds { EveryKindListed(k); }
  }

  /**
   * The length of an `event_type` stem and its first character, mapped back to the
   * class whose stem has that shape. No two stems share a shape.
   */
  ghost function KindWithShape(length: int, initial: char): Option<EventKind> {
    match length
    case 6 => Some(County)
    case 8 => Some(Latitude)
    case 9 => if initial == 'l' then Some(Longitude) else if initial == 'u' then Some(UnitType) else None
    case 10 => Some(Pollutants)
    case 13 => if initial == 'f' then Some(FacilityName) else if initial == 'o' then Some(OperatorName) else if initial == 'i' then Some(IndustryType) else None
    case 14 => if initial == 'c' then Some(ControlDevice) else if initial == 's' then Some(SubjectToNSR) else None
    case 15 => Some(HasVOCStorage)
    case 16 => if initial == 'u' then Some(UnitDescription) else if initial == 'h' then Some(HasParticulates) else None
    case 17 => Some(ComplianceMethod)
    case 18 => Some(PrimaryOperations)
    case 19 => Some(EstimatedEmissions)
    case 20 => Some(SubscribeToUpdates)
    case 21 => Some(EmissionCreditsUsed)
    case 22 => Some(HasCombustionSources)
    case 23 => if initial == 'r' then Some(RegulatedEntityNumber) else if initial == 'm' then Some(MonitoringRequirements) else None
    case 24 => Some(HasRiskManagementPlan)
    case 26 => Some(VolatileOrganicCompounds)
    case 30 => Some(StratosphericOzoneCompliance)
    case _ => None
  }

  lemma ShapeDeterminesKind(k: EventKind)
    ensures |Stem(k)| > 0 && KindWithShape(|Stem(k)|, Stem(k)[0]) == Some(k)
  {
    match Step(k)
    case Facility => FacilityShapeDeterminesKind(k);
    case Emissions => EmissionsShapeDeterminesKind(k);
    case Compliance => ComplianceShapeDeterminesKind(k);
    case Additional => AdditionalShapeDeterminesKind(k);
  }

  lemma FacilityShapeDeterminesKind(k: EventKind)
    requires Step(k) == Facility
    ensures |Stem(k)| > 0 && KindWithShape(|Stem(k)|, Stem(k)[0]) == Some(k)
  {
  }

  lemma EmissionsShapeDeterminesKind(k: EventKind)
    requires Step(k) == Emissions
    ensures |Stem(k)| > 0 && KindWithShape(|Stem(k)|, Stem(k)[0]) == Some(k)
  {
  }

  lemma ComplianceShapeDeterminesKind(k: EventKind)
    requires Step(k) == Compliance
    ensures |Stem(k)| > 0 && KindWithShape(|Stem(k)|, Stem(k)[0]) == Some(k)
  {
  }

  lemma AdditionalShapeDeterminesKind(k: EventKind)
    requires Step(k) == Additional
    ensures |Stem(k)| > 0 && KindWithShape(|Stem(k)|, Stem(k)[0]) == Some(k)
  {
  }

  /** No two classes share an `event_type`, so the literal alone selects the class. */
  lemma EventTypesDistinct(j: EventKind, k: EventKind)
    ensures EventType(j) == EventType(k) ==> j == k
  {
    ShapeDeterminesKind(j);
    ShapeDeterminesKind(k);
    if EventType(j) == EventType(k) {
      assert |Stem(j)| == |Stem(k)|;
      assert Stem(j)[0] == EventType(j)[0] && Stem(k)[0] == EventType(k)[0];
    }
  }

  /** Validation against the members `ks` of the union, tried in order: the first that accepts. */
  function ValidateAgainst(ks: seq<EventKind>, eventType: string, step: string, fieldName: string, suggestion: string, reasoning: string)
    : (r: Option<Event>)
    ensures r.Some? ==> r.value.kind in ks && Accepts(r.value.kind, eventType, step, fieldName, suggestion)
                        && r.value.suggestion == suggestion && r.value.reasoning == reasoning
    ensures r.None? <==> forall i :: 0 <= i < |ks| ==> !Accepts(ks[i], eventType, step, fieldName, suggestion)
  {
    if ks == [] then None
    else if Accepts(ks[0], eventType, step, fieldName, suggestion) then Some(Event(ks[0], suggestion, reasoning))
    else
      var r := ValidateAgainst(ks[1..], eventType, step, fieldName, suggestion, reasoning);
      assert forall i :: 1 <= i < |ks| ==> ks[i] == ks[1..][i - 1];
      r
  }

  /**
   * Validation against the `SuggestionEvent` union: an event without
   * `reasoning` is refused; otherwise the one class whose literals and
   * constraint the event meets is chosen.
   */
  function Validate(eventType: string, step: string, fieldName: string, suggestion: string, reasoning: Option<string>): (r: Option<Event>)
    ensures r.Some? ==> && Accepts(r.value.kind, eventType, step, fieldName, suggestion)
                        && r.value.suggestion == suggestion && reasoning == Some(r.value.reasoning)
    ensures reasoning == None ==> r == None
    ensures forall k :: (Accepts(k, eventType, step, fieldName, suggestion) && reasoning.Some?) ==> r == Some(Event(k, suggestion, reasoning.value))
  {
    if reasoning.None? then None
    else
      var r := ValidateAgainst(Kinds, eventType, step, fieldName, suggestion, reasoning.value);
      assert forall k :: Accepts(k, eventType, step, fieldName, suggestion) ==> r == Some(Event(k, suggestion, reasoning.value)) by {
        forall k | Accepts(k, eventType, step, fieldName, suggestion) ensures r == Some(Event(k, suggestion, reasoning.value)) {
          EveryKindListed(k);
          EventTypesDistinct(k, r.value.kind);
        }
      }
      r
  }

  /**
   * Validation against one class, as a tool bound to that class does it: an
   * omitted `event_type`, `step` or `field_name` takes the class's literal,
   * a given one must equal it; `reasoning` has no default.
   */
  function ValidateAs(k: EventKind, eventType: Option<string>, step: Option<string>, fieldName: Option<string>,
                      suggestion: string, reasoning: Option<string>): (r: Option<Event>)
    ensures r.Some? <==> && (eventType.None? || eventType.value == EventType(k))
                         && (step.None? || step.value == StepValue(Step(k)))
                         && (fieldName.None? || fieldName.value == FieldName(k))
                         && SuggestionOk(k, suggestion) && reasoning.Some?
    ensures r.Some? ==> r.value == Event(k, suggestion, reasoning.value)
  {
    if && reasoning.Some? && Accepts(k, eventType.GetOr(EventType(k)), step.GetOr(StepValue(Step(k))),
                                     fieldName.GetOr(FieldName(k)), suggestion)
    then Some(Event(k, suggestion, reasoning.value)) else None
  }

  /** With all three fields given, the class's own validation and the union's agree. */
  lemma ValidateAsAgreesWithValidate(k: EventKind, eventType: string, step: string, fieldName: string,
                                     suggestion: string, reasoning: Option<string>)
    ensures ValidateAs(k, Some(eventType), Some(step), Some(fieldName), suggestion, reasoning).Some?
            ==> Validate(eventType, step, fieldName, suggestion, reasoning)
                == ValidateAs(k, Some(eventType), Some(step), Some(fieldName), suggestion, reasoning)
    ensures Validate(eventType, step, fieldName, suggestion, reasoning).Some?
            && Validate(eventType, step, fieldName, suggestion, reasoning).value.kind == k
            ==> ValidateAs(k, Some(eventType), Some(step), Some(fieldName), suggestion, reasoning)
                == Validate(eventType, step, fieldName, suggestion, reasoning)
  {
  }

  /**
   * Omitting the three fields is the same as giving the class's literals, and
   * the union then accepts exactly what the class does; another class's
   * `event_type` is refused.
   */
  lemma ValidateAsDefaults(k: EventKind, suggestion: string, reasoning: Option<string>)
    ensures ValidateAs(k, None, None, None, suggestion, reasoning)
         == ValidateAs(k, Some(EventType(k)), Some(StepValue(Step(k))), Some(FieldName(k)), suggestion, reasoning)
    ensures ValidateAs(k, None, None, None, suggestion, reasoning)
         == Validate(EventType(k), StepValue(Step(k)), FieldName(k), suggestion, reasoning)
    ensures forall j :: j != k ==> ValidateAs(k, Some(EventType(j)), None, None, suggestion, reasoning) == None
  {
    ValidateOwnLiterals(k, suggestion, reasoning);
    forall j | j != k ensures ValidateAs(k, Some(EventType(j)), None, None, suggestion, reasoning) == None {
      EventTypesDistinct(j, k);
    }
  }

  /** The union given a class's own literals accepts exactly what that class does. */
  lemma ValidateOwnLiterals(k: EventKind, suggestion: string, reasoning: Option<string>)
    ensures Validate(EventType(k), StepValue(Step(k)), FieldName(k), suggestion, reasoning)
         == (if SuggestionOk(k, suggestion) && reasoning.Some? then Some(Event(k, suggestion, reasoning.value)) else None)
  {
    var r := Validate(EventType(k), StepValue(Step(k)), FieldName(k), suggestion, reasoning);
    if r.Some? { EventTypesDistinct(r.value.kind, k); }
  }

  /** Every `event_type` literal carries the suffix the frontend's recogniser looks for. */
  lemma EventTypesCarrySuffix(k: EventKind)
    ensures EndsWith(EventType(k), AISuggestions.SuggestionSuffix)
  {
    EndsWithConcat(Stem(k), AISuggestions.SuggestionSuffix);
  }

  /** The serialised event as the frontend's handler reads it. */
  function ToMessage(e: Event): (msg: AISuggestions.Message)
    ensures msg.Parsed? && msg.eventType == Some(EventType(e.kind)) && msg.fieldName == Some(FieldName(e.kind))
    ensures msg.suggestion == AISuggestions.JsonString(e.suggestion) && msg.reasoning == Some(e.reasoning)
  {
    AISuggestions.Parsed(Some(EventType(e.kind)), Some(FieldName(e.kind)), AISuggestions.JsonString(e.suggestion), Some(e.reasoning))
  }

  /** Any valid event, once received, is stored under its own field name with its reasoning. */
  lemma ValidEventIsStored(m: AISuggestions.Suggestions, e: Event)
    ensures AISuggestions.Handle(m, ToMessage(e))
         == AISuggestions.Upsert(m, FieldName(e.kind), AISuggestions.Suggestion(AISuggestions.JsonString(e.suggestion), Some(e.reasoning)))
  {
    EventTypesCarrySuffix(e.kind);
  }

  /** The three enumerations are the ones the form schemas check against. */
  lemma EnumsAgreeWithSchemas(s: string)
    ensures SuggestionOk(IndustryType, s) <==> s in ValidationSchemas.IndustryTypes
    ensures SuggestionOk(UnitType, s) <==> s in ValidationSchemas.UnitTypes
    ensures SuggestionOk(ComplianceMethod, s) <==> s in ValidationSchemas.ComplianceMethods
  {
  }

  /** The events the emission-units step displays are keyed by the names that step reads. */
  lemma FieldNamesMatchEmissionStep()
    ensures FieldName(PrimaryOperations) == PermitEmissionUnitsStep.FieldName(PermitEmissionUnitsStep.PrimaryOperationsField)
    ensures FieldName(EstimatedEmissions) == PermitEmissionUnitsStep.FieldName(PermitEmissionUnitsStep.EstimatedAnnualEmissionsField)
  {
  }

  /**
   * The event's bound counts untrimmed characters while the form schema trims
   * first: a facility name of three spaces is a valid suggestion that the
   * facility schema refuses once accepted into the form.
   */
  lemma FacilityNameBoundLooserThanSchema()
    ensures SuggestionOk(FacilityName, "   ")
    ensures !ValidationSchemas.FacilityNameOk("   ")
  {
    assert IsJsWhitespace("   "[0]) && IsJsWhitespace("   "[1]) && IsJsWhitespace("   "[2]);
    assert JsTrim("   ") == [];
  }

  /** Checkbox classes accept any text, so "false" and "" are both valid suggestions. */
  lemma FlagEventsAcceptAnyText(k: EventKind, s: string)
    requires IsFlagKind(k)
    ensures SuggestionOk(k, s)
  {
  }

  /**
   * A checkbox event carrying the text "false", once received and handed to a
   * checkbox adapter through `Boolean()`, is suggested as a ticked box.
   */
  lemma FalseFlagEventSuggestsTicked(m: AISuggestions.Suggestions, e: Event)
    requires IsFlagKind(e.kind) && e.suggestion == "false"
    ensures StepWiring.FlagSuggestion(AISuggestions.Handle(m, ToMessage(e)), FieldName(e.kind)).Some?
    ensures StepWiring.FlagSuggestion(AISuggestions.Handle(m, ToMessage(e)), FieldName(e.kind)).value.value
  {
    ValidEventIsStored(m, e);
  }
}
