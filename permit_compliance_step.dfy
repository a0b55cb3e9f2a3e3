/**
 * Step 3 of the permit wizard (`ComplianceStep`): the form over the
 * compliance group, the monitoring-requirement toggle, the submit wiring, and
 * the compliance-method select that takes suggestions.
 */
module PermitComplianceStep {
  import opened Wrappers
  import opened ApplicationData
  import opened StepWiring
  import opened AdapterCallbacks
  import Lists
  import PermitStore
  import ValidationSchemas
  import AISuggestions
  import SuggestionSelect

  /** The form defaults: the stored values, with an unset method ('') given as `undefined`. */
  function DefaultForm(c: ComplianceInfo): (f: ValidationSchemas.ComplianceForm)
    ensures c.complianceMethod == "" ==> f.complianceMethod == None
    ensures c.complianceMethod != "" ==> f.complianceMethod == Some(c.complianceMethod)
    ensures f.subjectToNSR == c.subjectToNSR && f.hasRiskManagementPlan == c.hasRiskManagementPlan
    ensures f.monitoringRequirements == c.monitoringRequirements
    ensures f.stratosphericOzoneCompliance == c.stratosphericOzoneCompliance
  {
    ValidationSchemas.ComplianceForm(
      c.subjectToNSR, c.hasRiskManagementPlan, c.monitoringRequirements,
      if c.complianceMethod != "" then Some(c.complianceMethod) else None,
      c.stratosphericOzoneCompliance)
  }

  /**
   * Loading the stored group into the form and parsing it gives the stored
   * group back whenever it parses; an unset method stays unset and is reported.
   */
  lemma DefaultFormRoundTrip(c: ComplianceInfo)
    ensures ValidationSchemas.ParseCompliance(DefaultForm(c)).Success? ==> ValidationSchemas.ParseCompliance(DefaultForm(c)).value == c
    ensures c.complianceMethod == "" ==> ValidationSchemas.ComplianceMethod in ValidationSchemas.ParseCompliance(DefaultForm(c)).error
  {
    if c.complianceMethod == "" {
      assert !ValidationSchemas.ComplianceFieldOk(DefaultForm(c), ValidationSchemas.ComplianceMethod);
    }
  }

  class ComplianceStep {
    const store: PermitStore.PermitApplicationStore
    var form: ValidationSchemas.ComplianceForm

    constructor(store: PermitStore.PermitApplicationStore)
      ensures this.store == store && form == DefaultForm(store.data.compliance)
    {
      this.store := store;
      form := DefaultForm(store.data.compliance);
    }

    /** `toggleMonitoringRequirement`: drop every occurrence when present, otherwise append. */
    method ToggleMonitoringRequirement(requirement: string)
      modifies this`form
      ensures requirement in form.monitoringRequirements <==> requirement !in old(form).monitoringRequirements
      ensures form == old(form).(monitoringRequirements := Lists.Toggle(old(form).monitoringRequirements, requirement))
    {
      var current := form.monitoringRequirements;
      if requirement in current {
        form := form.(monitoringRequirements := Lists.Without(current, requirement));
      } else {
        form := form.(monitoringRequirements := current + [requirement]);
      }
    }

    /** The select's `onValueChange` (`field.onChange`). */
    method SetComplianceMethod(value: string)
      modifies this`form
      ensures form == old(form).(complianceMethod := Some(value))
    {
      form := form.(complianceMethod := Some(value));
    }

    /** `handleFormSubmit`: merge the whole group, mark step 3 completed, then `onNext`. */
    method HandleFormSubmit(formData: ComplianceInfo) returns (calls: seq<ParentCall>)
      requires store.Valid()
      modifies store`data, store`completedSteps
      ensures store.Valid()
      ensures store.data == old(store.data).(compliance := formData)
      ensures store.completedSteps == old(store.completedSteps) + {3}
      ensures calls == [OnNext]
    {
      store.UpdateComplianceInfo(FullCompliancePatch(formData));
      store.MarkStepCompleted(3);
      calls := [OnNext];
    }

    /** `form.handleSubmit(handleFormSubmit)`: the handler runs only on values the schema accepts. */
    method Submit() returns (calls: seq<ParentCall>)
      requires store.Valid()
      modifies store`data, store`completedSteps
      ensures store.Valid()
      ensures ValidationSchemas.ParseCompliance(old(form)).Success? ==>
        && store.data == old(store.data).(compliance := ValidationSchemas.ParseCompliance(old(form)).value)
        && store.completedSteps == old(store.completedSteps) + {3}
        && calls == [OnNext]
      ensures ValidationSchemas.ParseCompliance(old(form)).Failure? ==>
        store.data == old(store.data) && store.completedSteps == old(store.completedSteps) && calls == []
    {
      var parsed := ValidationSchemas.ParseCompliance(form);
      if parsed.Success? {
        calls := HandleFormSubmit(parsed.value);
      } else {
        calls := [];
      }
    }

    /** The select's `onAccept`: write the field, then forward to `onAcceptSuggestion`. */
    method AcceptComplianceMethod(value: string) returns (calls: seq<ParentCall>)
      modifies this`form
      ensures form == old(form).(complianceMethod := Some(value))
      ensures calls == [ParentCall.AcceptSuggestion("complianceMethod", Text(value))]
    {
      form := form.(complianceMethod := Some(value));
      calls := [ParentCall.AcceptSuggestion("complianceMethod", Text(value))];
    }

    method RejectComplianceMethod() returns (calls: seq<ParentCall>)
      ensures calls == [ParentCall.RejectSuggestion("complianceMethod")]
    {
      calls := [ParentCall.RejectSuggestion("complianceMethod")];
    }
  }

  /** Ticking a requirement the form lacks and unticking it again gives back the original list. */
  method ToggleTwiceScenario(stored: seq<string>, requirement: string) returns (before: seq<string>, after: seq<string>)
    requires requirement !in stored
    ensures before == stored && after == stored
  {
    var store := new PermitStore.PermitApplicationStore();
    store.UpdateComplianceInfo(NoComplianceChange.(monitoringRequirements := Some(stored)));
    var step := new ComplianceStep(store);
    before := step.form.monitoringRequirements;
    step.ToggleMonitoringRequirement(requirement);
    step.ToggleMonitoringRequirement(requirement);
    Lists.ToggleTwiceRestores(before, requirement);
    after := step.form.monitoringRequirements;
  }

  /**
   * A suggested method reaches the select from the suggestion map; Accept calls
   * the step's `onAccept` and then its change handler, which both write the
   * field; with one requirement ticked and a listed method the submit then
   * completes step 3.
   */
  method AcceptedMethodCompletesStep(chosen: string, requirement: string)
    returns (forwarded: seq<ParentCall>, submitted: seq<ParentCall>, completed: bool)
    requires chosen in ValidationSchemas.ComplianceMethods
    ensures forwarded == [ParentCall.AcceptSuggestion("complianceMethod", Text(chosen))]
    ensures submitted == [OnNext] && completed
  {
    var suggestions := AISuggestions.Upsert(map[], "complianceMethod", AISuggestions.Suggestion(AISuggestions.JsonString(chosen), None));
    var store := new PermitStore.PermitApplicationStore();
    var step := new ComplianceStep(store);
    var select := new SuggestionSelect.Select(step.form.complianceMethod, None);
    select.SetProps(step.form.complianceMethod, TextSuggestion(suggestions, "complianceMethod"));
    select.SuggestionEffect();
    var accepted := select.HandleAccept();
    forwarded := step.AcceptComplianceMethod(accepted[0].value);
    step.SetComplianceMethod(accepted[1].value);
    step.ToggleMonitoringRequirement(requirement);
    assert step.form.monitoringRequirements == [] + [requirement];
    submitted := step.Submit();
    completed := 3 in store.completedSteps;
  }
}
