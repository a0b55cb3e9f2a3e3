/**
 * Step 3 of the onboarding flow (`ComplianceStep` over the onboarding store):
 * three flag checkboxes and six monitoring checkboxes wrapped in checkbox
 * adapters that never receive a suggestion, the monitoring-list handler, the
 * submit wiring, and the compliance-method select that takes suggestions.
 *
 * The schema this form is resolved with is not exported by the schema module,
 * so submission is modelled from the handler on: `HandleFormSubmit` receives
 * the form values as they stand.
 */
module OnboardingComplianceStep {
  import opened Wrappers
  import opened ApplicationData
  import opened StepWiring
  import opened AdapterCallbacks
  import Lists
  import OnboardingStore
  import SuggestionCheckbox

  class ComplianceStep {
    const store: OnboardingStore.PermitApplicationStore
    var form: ComplianceInfo

    /** The defaults are the stored values as they are (the store starts the method at 'periodic'). */
    constructor(store: OnboardingStore.PermitApplicationStore)
      ensures this.store == store && form == store.data.compliance
    {
      this.store := store;
      form := store.data.compliance;
    }

    /**
     * `handleMonitoringChange(value, checked)`: a tick appends the value, even
     * when it is already listed; an untick drops every occurrence.
     */
    method HandleMonitoringChange(value: string, checked: bool)
      modifies this`form
      ensures checked ==> form == old(form).(monitoringRequirements := old(form).monitoringRequirements + [value])
      ensures !checked ==> form == old(form).(monitoringRequirements := Lists.Without(old(form).monitoringRequirements, value))
      ensures checked ==> multiset(form.monitoringRequirements)[value] == multiset(old(form).monitoringRequirements)[value] + 1
      ensures !checked ==> value !in form.monitoringRequirements
      ensures forall other :: other != value ==>
        multiset(form.monitoringRequirements)[other] == multiset(old(form).monitoringRequirements)[other]
    {
      var current := form.monitoringRequirements;
      var updated := if checked then current + [value] else Lists.Without(current, value);
      form := form.(monitoringRequirements := updated);
    }

    /** A flag checkbox's `onCheckedChange` (`field.onChange`). */
    method SetSubjectToNSR(v: bool)
      modifies this`form
      ensures form == old(form).(subjectToNSR := v)
    {
      form := form.(subjectToNSR := v);
    }

    method SetComplianceMethod(value: string)
      modifies this`form
      ensures form == old(form).(complianceMethod := value)
    {
      form := form.(complianceMethod := value);
    }

    /** `handleFormSubmit`: `updateCompliance` with the whole group, mark step 3 completed, then `onNext`. */
    method HandleFormSubmit(formData: ComplianceInfo) returns (calls: seq<ParentCall>)
      requires store.Valid()
      modifies store`data, store`completedSteps
      ensures store.Valid()
      ensures store.data == old(store.data).(compliance := formData)
      ensures store.completedSteps == old(store.completedSteps) + {3}
      ensures calls == [OnNext]
    {
      store.UpdateCompliance(FullCompliancePatch(formData));
      store.MarkStepCompleted(3);
      calls := [OnNext];
    }

    /** The select's `onAccept`: write the field, then forward to `onAcceptSuggestion`. */
    method AcceptComplianceMethod(value: string) returns (calls: seq<ParentCall>)
      modifies this`form
      ensures form == old(form).(complianceMethod := value)
      ensures calls == [ParentCall.AcceptSuggestion("complianceMethod", Text(value))]
    {
      form := form.(complianceMethod := value);
      calls := [ParentCall.AcceptSuggestion("complianceMethod", Text(value))];
    }

    method RejectComplianceMethod() returns (calls: seq<ParentCall>)
      ensures calls == [ParentCall.RejectSuggestion("complianceMethod")]
    {
      calls := [ParentCall.RejectSuggestion("complianceMethod")];
    }
  }

  /** Ticking the same option twice lists it twice; one untick then removes both copies. */
  method TickTwiceThenUntick(stored: seq<string>, option: string)
    returns (afterTicks: seq<string>, afterUntick: seq<string>)
    requires option !in stored
    ensures afterTicks == stored + [option, option]
    ensures afterUntick == stored
  {
    var store := new OnboardingStore.PermitApplicationStore();
    store.UpdateCompliance(NoComplianceChange.(monitoringRequirements := Some(stored)));
    var step := new ComplianceStep(store);
    step.HandleMonitoringChange(option, true);
    step.HandleMonitoringChange(option, true);
    afterTicks := step.form.monitoringRequirements;
    assert afterTicks == stored + [option] + [option] == stored + [option, option];
    step.HandleMonitoringChange(option, false);
    Lists.WithoutTwoAppended(stored, option);
    afterUntick := step.form.monitoringRequirements;
  }

  /**
   * The flag and monitoring checkboxes get no suggestion and empty handlers:
   * whatever the effect runs, the controls never show, ticks reach the form,
   * and Accept does nothing.
   */
  method FlagCheckboxNeverSuggests(checked: bool, tick: bool)
    returns (controls: bool, clicked: seq<Callback<bool>>, accepted: seq<Callback<bool>>, flag: bool)
    ensures !controls
    ensures clicked == [OnChange(tick)] && accepted == []
    ensures flag == tick
  {
    var store := new OnboardingStore.PermitApplicationStore();
    var step := new ComplianceStep(store);
    var box := new SuggestionCheckbox.Checkbox(Some(checked), None);
    box.SuggestionEffect();
    box.ValueEffect();
    controls := box.ControlsShown();
    clicked := box.UserToggle(tick);
    step.SetSubjectToNSR(clicked[0].value);
    accepted := box.HandleAccept();
    flag := step.form.subjectToNSR;
  }
}
