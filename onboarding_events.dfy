/**
 * The onboarding suggestion events (`backend/wizard_events.py`): ten event
 * classes, each pinning its `event_type`, `step` and `field_name` to literals
 * and constraining the suggested value, joined in the `SuggestionEvent` union.
 *
 * Python's `len` (what `min_length`/`max_length` count) is `|s|`.
 */
module OnboardingEvents {
  import opened Wrappers
  import opened Text
  import AISuggestions

  datatype WizardStep = Welcome | Company | Personalization

  function StepValue(s: WizardStep): string {
    match s
    case Welcome => "welcome"
    case Company => "company"
    case Personalization => "personalization"
  }

  const Industries: seq<string> := ["Technology", "Healthcare", "Finance", "Education", "Manufacturing",
                                    "Retail", "Consulting", "Marketing", "Real Estate", "Other"]
  const EmployeeRanges: seq<string> := ["1-10", "11-50", "51-200", "201-500", "501-1000", "1000+"]
  const Vibes: seq<string> := ["builder", "dreamer", "hacker", "visionary"]

  /** The members of the `SuggestionEvent` union. */
  datatype EventKind =
    | FullName | Email | Password | Industry
    | CompanyName | NumberOfEmployees | Goals | SubscribeToUpdates
    | Vibe | FavoriteColor

  /** The union, in its declared order. */
  const Kinds: seq<EventKind> :=
    [FullName, Email, Password, Industry, CompanyName, NumberOfEmployees, Goals, SubscribeToUpdates, Vibe, FavoriteColor]

  /** Each class's `event_type` literal without its `_suggestion` ending. */
  function Stem(k: EventKind): string {
    match k
    case FullName => "full_name"
    case Email => "email"
    case Password => "password"
    case Industry => "industry"
    case CompanyName => "company_name"
    case NumberOfEmployees => "number_of_employees"
    case Goals => "goals"
    case SubscribeToUpdates => "subscribe_to_updates"
    case Vibe => "vibe"
    case FavoriteColor => "favorite_color"
  }

  /** Each class's `event_type` literal: its stem followed by `_suggestion`. */
  function EventType(k: EventKind): string {
    Stem(k) + AISuggestions.SuggestionSuffix
  }

  /** Each class's `field_name` literal: the form's own key for the field. */
  function FieldName(k: EventKind): string {
    match k
    case FullName => "fullName"
    case Email => "email"
    case Password => "password"
    case Industry => "industry"
    case CompanyName => "companyName"
    case NumberOfEmployees => "numberOfEmployees"
    case Goals => "goals"
    case SubscribeToUpdates => "subscribeToUpdates"
    case Vibe => "vibe"
    case FavoriteColor => "favoriteColor"
  }

  /** Each class's `step` literal. */
  function Step(k: EventKind): WizardStep {
    match k
    case FullName | Email | Password | Industry => Welcome
    case CompanyName | NumberOfEmployees | Goals | SubscribeToUpdates => Company
    case Vibe | FavoriteColor => Personalization
  }

  /** The `suggestion` field: a string for every class but one, which takes a bool. */
  type Value = AISuggestions.JsonValue

  /** The type and constraint each class puts on `suggestion`. */
  predicate SuggestionOk(k: EventKind, v: Value) {
    match k
    case FullName => v.JsonString? && 2 <= |v.text| <= 50
    case Email => v.JsonString?
    case Password => v.JsonString? && 6 <= |v.text| <= 50
    case Industry => v.JsonString? && v.text in Industries
    case CompanyName => v.JsonString? && 2 <= |v.text| <= 100
    case NumberOfEmployees => v.JsonString? && v.text in EmployeeRanges
    case Goals => v.JsonString? && 10 <= |v.text| <= 500
    case SubscribeToUpdates => v.JsonBool?
    case Vibe => v.JsonString? && v.text in Vibes
    case FavoriteColor => v.JsonString? && IsHexColor(v.text)
  }

  /** A validated event; `reasoning` is optional and defaults to `None`. */
  datatype Event = Event(kind: EventKind, suggestion: Value, reasoning: Option<string>)

  /** The union member an `event_type` names, if any. */
  function KindOf(eventType: string): (k: Option<EventKind>)
    ensures k.Some? ==> EventType(k.value) == eventType
  {
    if eventType == EventType(FullName) then Some(FullName)
    else if eventType == EventType(Email) then Some(Email)
    else if eventType == EventType(Password) then Some(Password)
    else if eventType == EventType(Industry) then Some(Industry)
    else if eventType == EventType(CompanyName) then Some(CompanyName)
    else if eventType == EventType(NumberOfEmployees) then Some(NumberOfEmployees)
    else if eventType == EventType(Goals) then Some(Goals)
    else if eventType == EventType(SubscribeToUpdates) then Some(SubscribeToUpdates)
    else if eventType == EventType(Vibe) then Some(Vibe)
    else if eventType == EventType(FavoriteColor) then Some(FavoriteColor)
    else None
  }

  /**
   * The length of an `event_type` stem and its first character, mapped back to the
   * class whose stem has that shape. No two stems share a shape.
   */
  ghost function KindWithShape(length: int, initial: char): Option<EventKind> {
    match length
    case 4 => Some(Vibe)
    case 5 => if initial == 'e' then Some(Email) else if initial == 'g' then Some(Goals) else None
    case 8 => if initial == 'p' then Some(Password) else if initial == 'i' then Some(Industry) else None
    case 9 => Some(FullName)
    case 12 => Some(CompanyName)
    case 14 => Some(FavoriteColor)
    case 19 => Some(NumberOfEmployees)
    case 20 => Some(SubscribeToUpdates)
    case _ => None
  }

  lemma ShapeDeterminesKind(k: EventKind)
    ensures |Stem(k)| > 0 && KindWithShape(|Stem(k)|, Stem(k)[0]) == Some(k)
  {
  }

  /** No two classes share an `event_type`. */
  lemma EventTypesDistinct(j: EventKind, k: EventKind)
    ensures EventType(j) == EventType(k) ==> j == k
  {
    ShapeDeterminesKind(j);
    ShapeDeterminesKind(k);
    if EventType(j) == EventType(k) {
      assert |Stem(j)| == |Stem(k)|;
      assert Stem(j)[0] == EventType(j)[0] && Stem(k)[0] == EventType(k)[0];
    }
  }

  /** Every literal names its own class back. */
  lemma KindOfEventType(k: EventKind)
    ensures KindOf(EventType(k)) == Some(k)
  {
    forall j ensures EventType(j) == EventType(k) ==> j == k { EventTypesDistinct(j, k); }
  }

  /**
   * Validation against the union: the `event_type` selects the class, whose
   * `step` and `field_name` literals and `suggestion` constraint must then hold.
   */
  function Validate(eventType: string, step: string, fieldName: string, suggestion: Value, reasoning: Option<string>): (r: Option<Event>)
    ensures r.Some? ==> && EventType(r.value.kind) == eventType && StepValue(Step(r.value.kind)) == step
                        && FieldName(r.value.kind) == fieldName && SuggestionOk(r.value.kind, suggestion)
                        && r.value.suggestion == suggestion && r.value.reasoning == reasoning
    ensures forall k ::
      (EventType(k) == eventType && StepValue(Step(k)) == step && FieldName(k) == fieldName && SuggestionOk(k, suggestion))
      ==> r == Some(Event(k, suggestion, reasoning))
  {
    match KindOf(eventType)
    case None =>
      EventTypesAreKeys(eventType);
      None
    case Some(k) =>
      KindOfIsTheOnlyKind(eventType, k);
      if StepValue(Step(k)) == step && FieldName(k) == fieldName && SuggestionOk(k, suggestion)
      then Some(Event(k, suggestion, reasoning)) else None
  }

  lemma KindOfIsTheOnlyKind(eventType: string, k: EventKind)
    requires KindOf(eventType) == Some(k)
    ensures forall j :: EventType(j) == eventType ==> j == k
  {
    EventTypesAreKeys(eventType);
  }

  lemma EventTypesAreKeys(eventType: string)
    ensures forall k :: EventType(k) == eventType ==> KindOf(eventType) == Some(k)
  {
    forall k | EventType(k) == eventType { KindOfEventType(k); }
  }

  /**
   * Validation against one class, as a tool bound to that class does it: an
   * omitted `event_type`, `step` or `field_name` takes the class's literal,
   * a given one must equal it.
   */
  function ValidateAs(k: EventKind, eventType: Option<string>, step: Option<string>, fieldName: Option<string>,
                      suggestion: Value, reasoning: Option<string>): (r: Option<Event>)
    ensures r.Some? <==> && (eventType.None? || eventType.value == EventType(k))
                         && (step.None? || step.value == StepValue(Step(k)))
                         && (fieldName.None? || fieldName.value == FieldName(k))
                         && SuggestionOk(k, suggestion)
    ensures r.Some? ==> r.value == Event(k, suggestion, reasoning)
  {
    if && eventType.GetOr(EventType(k)) == EventType(k) && step.GetOr(StepValue(Step(k))) == StepValue(Step(k))
       && fieldName.GetOr(FieldName(k)) == FieldName(k) && SuggestionOk(k, suggestion)
    then Some(Event(k, suggestion, reasoning)) else None
  }

  /** With all three fields given, the class's own validation and the union's agree. */
  lemma ValidateAsAgreesWithValidate(k: EventKind, eventType: string, step: string, fieldName: string,
                                     suggestion: Value, reasoning: Option<string>)
    ensures ValidateAs(k, Some(eventType), Some(step), Some(fieldName), suggestion, reasoning).Some?
            ==> Validate(eventType, step, fieldName, suggestion, reasoning)
                == ValidateAs(k, Some(eventType), Some(step), Some(fieldName), suggestion, reasoning)
    ensures Validate(eventType, step, fieldName, suggestion, reasoning).Some?
            && Validate(eventType, step, fieldName, suggestion, reasoning).value.kind == k
            ==> ValidateAs(k, Some(eventType), Some(step), Some(fieldName), suggestion, reasoning)
                == Validate(eventType, step, fieldName, suggestion, reasoning)
  {
  }

  /**
   * Omitting the three fields is the same as giving the class's literals, and
   * the union then accepts exactly what the class does; another class's
   * `event_type` is refused.
   */
  lemma ValidateAsDefaults(k: EventKind, suggestion: Value, reasoning: Option<string>)
    ensures ValidateAs(k, None, None, None, suggestion, reasoning)
         == ValidateAs(k, Some(EventType(k)), Some(StepValue(Step(k))), Some(FieldName(k)), suggestion, reasoning)
    ensures ValidateAs(k, None, None, None, suggestion, reasoning)
         == Validate(EventType(k), StepValue(Step(k)), FieldName(k), suggestion, reasoning)
    ensures forall j :: j != k ==> ValidateAs(k, Some(EventType(j)), None, None, suggestion, reasoning) == None
  {
    var r := Validate(EventType(k), StepValue(Step(k)), FieldName(k), suggestion, reasoning);
    if r.Some? { EventTypesDistinct(r.value.kind, k); }
    forall j | j != k ensures EventType(j) != EventType(k) { EventTypesDistinct(j, k); }
  }

  /** Every `event_type` literal carries the suffix the frontend's recogniser looks for. */
  lemma EventTypesCarrySuffix(k: EventKind)
    ensures EndsWith(EventType(k), AISuggestions.SuggestionSuffix)
  {
    EndsWithConcat(Stem(k), AISuggestions.SuggestionSuffix);
  }

  /** The serialised event as the frontend's handler reads it; a boolean suggestion stays a JSON boolean. */
  function ToMessage(e: Event): (msg: AISuggestions.Message)
    ensures msg.Parsed? && msg.eventType == Some(EventType(e.kind)) && msg.fieldName == Some(FieldName(e.kind))
    ensures msg.suggestion == e.suggestion && msg.reasoning == e.reasoning
  {
    AISuggestions.Parsed(Some(EventType(e.kind)), Some(FieldName(e.kind)), e.suggestion, e.reasoning)
  }

  /** Any event, once received, is stored under its own field name with its value and reasoning. */
  lemma ValidEventIsStored(m: AISuggestions.Suggestions, e: Event)
    ensures AISuggestions.Handle(m, ToMessage(e))
         == AISuggestions.Upsert(m, FieldName(e.kind), AISuggestions.Suggestion(e.suggestion, e.reasoning))
  {
    EventTypesCarrySuffix(e.kind);
  }
}
