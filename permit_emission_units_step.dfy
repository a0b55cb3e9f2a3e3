/**
 * Step 2 of the permit wizard (`EmissionUnitsStep`): the form over the
 * emission group, the add-unit panel with its draft, the unit list kept in
 * both the form and the store, the submit wiring, and the two text fields
 * that take suggestions.
 *
 * The new unit's id (`Date.now().toString()` in the component) is a parameter.
 */
module PermitEmissionUnitsStep {
  import opened Wrappers
  import opened ApplicationData
  import opened StepWiring
  import opened AdapterCallbacks
  import Lists
  import PermitStore
  import ValidationSchemas
  import AISuggestions
  import SuggestionTextarea

  /** The add panel's `Partial<EmissionUnit>` draft; an absent key is `None`. */
  datatype UnitDraft = UnitDraft(
    unitType: Option<string>,
    description: Option<string>,
    pollutants: Option<seq<string>>,
    controlDevice: Option<string>)

  /** The draft the panel starts from and is reset to. */
  const EmptyDraft := UnitDraft(None, Some(""), Some([]), Some(""))

  /** The guard of `handleAddUnit`: a truthy type and description, and a non-empty pollutant list. */
  predicate CanAdd(d: UnitDraft) {
    && d.unitType.Some? && d.unitType.value != ""
    && d.description.Some? && d.description.value != ""
    && d.pollutants.Some? && |d.pollutants.value| > 0
  }

  /** The add button's `disabled` expression, written as the button writes it. */
  function AddButtonDisabled(d: UnitDraft): (disabled: bool)
    ensures disabled <==> !CanAdd(d)
  {
    d.unitType.None? || d.unitType.value == "" || d.description.None? || d.description.value == ""
    || d.pollutants.None? || |d.pollutants.value| == 0
  }

  /** The unit `handleAddUnit` builds from the draft; the control device is copied as it stands. */
  function UnitFromDraft(d: UnitDraft, id: string): (u: EmissionUnit)
    ensures u.id == id && u.controlDevice == d.controlDevice
    ensures CanAdd(d) ==> Some(u.unitType) == d.unitType && Some(u.description) == d.description && Some(u.pollutants) == d.pollutants
    ensures CanAdd(d) ==> u.unitType != "" && u.description != "" && |u.pollutants| > 0
  {
    EmissionUnit(id, d.unitType.GetOr(""), d.description.GetOr(""), d.pollutants.GetOr([]), d.controlDevice)
  }

  /** The two fields of this step that take a suggestion. */
  datatype SuggestedField = PrimaryOperationsField | EstimatedAnnualEmissionsField

  function FieldName(f: SuggestedField): (name: string)
    ensures name in {"primaryOperations", "estimatedAnnualEmissions"}
  {
    match f
    case PrimaryOperationsField => "primaryOperations"
    case EstimatedAnnualEmissionsField => "estimatedAnnualEmissions"
  }

  /** `field.onChange(value)` on one of the two text fields. */
  function WriteField(form: EmissionInfo, f: SuggestedField, value: string): (r: EmissionInfo)
    ensures f == PrimaryOperationsField ==> r == form.(primaryOperations := value)
    ensures f == EstimatedAnnualEmissionsField ==> r == form.(estimatedAnnualEmissions := value)
  {
    match f
    case PrimaryOperationsField => form.(primaryOperations := value)
    case EstimatedAnnualEmissionsField => form.(estimatedAnnualEmissions := value)
  }

  class EmissionUnitsStep {
    const store: PermitStore.PermitApplicationStore
    /** The react-hook-form values. */
    var form: EmissionInfo
    var showAddUnit: bool
    var newUnit: UnitDraft

    /** The form starts from the store's emission group, the panel closed and the draft empty. */
    constructor(store: PermitStore.PermitApplicationStore)
      ensures this.store == store && form == store.data.emissions
      ensures !showAddUnit && newUnit == EmptyDraft
    {
      this.store := store;
      form := store.data.emissions;
      showAddUnit := false;
      newUnit := EmptyDraft;
    }

    /** The "Add Unit" header button flips the panel. */
    method ToggleAddPanel()
      modifies this`showAddUnit
      ensures showAddUnit == !old(showAddUnit)
    {
      showAddUnit := !showAddUnit;
    }

    /** Cancel closes the panel and resets the draft. */
    method CancelAdd()
      modifies this`showAddUnit, this`newUnit
      ensures !showAddUnit && newUnit == EmptyDraft
    {
      showAddUnit := false;
      newUnit := EmptyDraft;
    }

    method SetUnitType(unitType: string)
      modifies this`newUnit
      ensures newUnit == old(newUnit).(unitType := Some(unitType))
    {
      newUnit := newUnit.(unitType := Some(unitType));
    }

    method SetDescription(description: string)
      modifies this`newUnit
      ensures newUnit == old(newUnit).(description := Some(description))
    {
      newUnit := newUnit.(description := Some(description));
    }

    method SetControlDevice(controlDevice: string)
      modifies this`newUnit
      ensures newUnit == old(newUnit).(controlDevice := Some(controlDevice))
    {
      newUnit := newUnit.(controlDevice := Some(controlDevice));
    }

    /** `togglePollutant`: drop every occurrence when present in the draft, otherwise append it. */
    method TogglePollutant(pollutant: string)
      modifies this`newUnit
      ensures newUnit.pollutants.Some?
      ensures pollutant in newUnit.pollutants.value <==> pollutant !in old(newUnit).pollutants.GetOr([])
      ensures newUnit == old(newUnit).(pollutants := Some(Lists.Toggle(old(newUnit).pollutants.GetOr([]), pollutant)))
    {
      var current := newUnit.pollutants.GetOr([]);
      if pollutant in current {
        newUnit := newUnit.(pollutants := Some(Lists.Without(current, pollutant)));
      } else {
        newUnit := newUnit.(pollutants := Some(current + [pollutant]));
      }
    }

    /**
     * `handleAddUnit`: when the guard holds, the unit is appended to the store's
     * list and to the form's list, the draft is reset and the panel closes;
     * otherwise nothing happens.
     */
    method HandleAddUnit(id: string)
      modifies this`form, this`newUnit, this`showAddUnit, store`data
      ensures CanAdd(old(newUnit)) ==>
        && store.data.emissions.emissionUnits == old(store.data).emissions.emissionUnits + [UnitFromDraft(old(newUnit), id)]
        && form == old(form).(emissionUnits := old(form).emissionUnits + [UnitFromDraft(old(newUnit), id)])
        && newUnit == EmptyDraft && !showAddUnit
      ensures CanAdd(old(newUnit)) ==>
        store.data == old(store.data).(emissions := old(store.data).emissions.(
          emissionUnits := old(store.data).emissions.emissionUnits + [UnitFromDraft(old(newUnit), id)]))
      ensures !CanAdd(old(newUnit)) ==>
        store.data == old(store.data) && form == old(form) && newUnit == old(newUnit) && showAddUnit == old(showAddUnit)
    {
      if CanAdd(newUnit) {
        var unit := UnitFromDraft(newUnit, id);
        store.AddEmissionUnit(unit);
        form := form.(emissionUnits := form.emissionUnits + [unit]);
        newUnit := EmptyDraft;
        showAddUnit := false;
      }
    }

    /** `handleRemoveUnit`: every unit with the id leaves both lists; the rest keep their order. */
    method HandleRemoveUnit(id: string)
      modifies this`form, store`data
      ensures store.data == old(store.data).(emissions := old(store.data).emissions.(
        emissionUnits := RemoveUnitsById(old(store.data).emissions.emissionUnits, id)))
      ensures form == old(form).(emissionUnits := RemoveUnitsById(old(form).emissionUnits, id))
    {
      store.RemoveEmissionUnit(id);
      form := form.(emissionUnits := RemoveUnitsById(form.emissionUnits, id));
    }

    /**
     * `handleFormSubmit` with the values the schema returned: the whole group
     * is merged into the store, step 2 is marked completed, then `onNext`.
     */
    method HandleFormSubmit(formData: EmissionInfo) returns (calls: seq<ParentCall>)
      requires store.Valid()
      modifies store`data, store`completedSteps
      ensures store.Valid()
      ensures store.data == old(store.data).(emissions := formData)
      ensures store.completedSteps == old(store.completedSteps) + {2}
      ensures calls == [OnNext]
    {
      store.UpdateEmissionUnits(FullEmissionPatch(formData));
      store.MarkStepCompleted(2);
      calls := [OnNext];
    }

    /** `form.handleSubmit(handleFormSubmit)`: the handler runs only on values the schema accepts. */
    method Submit() returns (calls: seq<ParentCall>)
      requires store.Valid()
      modifies store`data, store`completedSteps
      ensures store.Valid()
      ensures ValidationSchemas.ParseEmission(old(form)).Success? ==>
        && store.data == old(store.data).(emissions := ValidationSchemas.TrimEmission(old(form)))
        && store.completedSteps == old(store.completedSteps) + {2}
        && calls == [OnNext]
      ensures ValidationSchemas.ParseEmission(old(form)).Failure? ==>
        store.data == old(store.data) && store.completedSteps == old(store.completedSteps) && calls == []
    {
      var parsed := ValidationSchemas.ParseEmission(form);
      if parsed.Success? {
        calls := HandleFormSubmit(parsed.value);
      } else {
        calls := [];
      }
    }

    /** The adapter's `onAccept`: write the field, then forward to `onAcceptSuggestion`. */
    method AcceptSuggestion(f: SuggestedField, value: string) returns (calls: seq<ParentCall>)
      modifies this`form
      ensures form == WriteField(old(form), f, value)
      ensures calls == [ParentCall.AcceptSuggestion(FieldName(f), Text(value))]
    {
      form := WriteField(form, f, value);
      calls := [ParentCall.AcceptSuggestion(FieldName(f), Text(value))];
    }

    /** The adapter's `onReject`: forward to `onRejectSuggestion`; the form is untouched. */
    method RejectSuggestion(f: SuggestedField) returns (calls: seq<ParentCall>)
      ensures calls == [ParentCall.RejectSuggestion(FieldName(f))]
    {
      calls := [ParentCall.RejectSuggestion(FieldName(f))];
    }
  }

  /**
   * With steps 1 and 2 behind it, a submit of valid step 2 values followed by
   * the wizard's `nextStep` lands on step 3.
   */
  method SubmitThenNextReachesStepThree(formData: EmissionInfo) returns (calls: seq<ParentCall>, reached: int)
    ensures calls == [OnNext]
    ensures reached == 3
  {
    var store := new PermitStore.PermitApplicationStore();
    store.MarkStepCompleted(1);
    store.NextStep();
    var step := new EmissionUnitsStep(store);
    calls := step.HandleFormSubmit(formData);
    store.NextStep();
    reached := store.currentStep;
  }

  /** A unit added from a filled draft and then removed by its id leaves both lists as they started. */
  method AddThenRemoveUnit(id: string, unitType: string, description: string, pollutant: string)
    returns (afterAdd: seq<EmissionUnit>, afterRemove: seq<EmissionUnit>, stored: seq<EmissionUnit>)
    requires unitType != "" && description != ""
    ensures afterAdd == [EmissionUnit(id, unitType, description, [pollutant], Some(""))]
    ensures afterRemove == [] && stored == []
  {
    var store := new PermitStore.PermitApplicationStore();
    var step := new EmissionUnitsStep(store);
    step.SetUnitType(unitType);
    step.SetDescription(description);
    step.TogglePollutant(pollutant);
    assert step.newUnit.pollutants == Some([] + [pollutant]);
    assert [] + [pollutant] == [pollutant];
    step.HandleAddUnit(id);
    afterAdd := step.form.emissionUnits;
    var unit := afterAdd[0];
    assert unit.id == id && store.data.emissions.emissionUnits == [unit];
    RemoveSoleUnit(unit);
    step.HandleRemoveUnit(id);
    afterRemove := step.form.emissionUnits;
    stored := store.data.emissions.emissionUnits;
  }

  /**
   * A `primaryOperations` suggestion reaches the text area through the
   * suggestion map; Accept writes it into the form field and forwards it.
   */
  method AcceptPrimaryOperationsSuggestion(value: string)
    returns (shown: Option<string>, written: string, forwarded: seq<ParentCall>)
    ensures shown == Some(value)
    ensures written == value
    ensures forwarded == [ParentCall.AcceptSuggestion("primaryOperations", Text(value))]
  {
    var suggestions := AISuggestions.Upsert(map[], "primaryOperations", AISuggestions.Suggestion(AISuggestions.JsonString(value), None));
    var store := new PermitStore.PermitApplicationStore();
    var step := new EmissionUnitsStep(store);
    var child := SuggestionTextarea.ChildProps(Some(step.form.primaryOperations), None, None);
    var area := new SuggestionTextarea.Textarea(child, None);
    area.SetProps(child, TextSuggestion(suggestions, "primaryOperations"));
    area.SuggestionEffect();
    shown := area.EnhancedChild().value;
    var accepted := area.HandleAccept();
    forwarded := step.AcceptSuggestion(PrimaryOperationsField, accepted[0].value);
    written := step.form.primaryOperations;
  }
}
