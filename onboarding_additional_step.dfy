/**
 * Step 4 of the onboarding flow (`AdditionalRequirementsStep` over the
 * onboarding store): three checkboxes, of which only `subscribeToUpdates`
 * takes a suggestion, its stored text coerced with `Boolean()`.
 *
 * As for step 3, the schema is not exported, so `HandleFormSubmit` receives
 * the form values as they stand.
 */
module OnboardingAdditionalStep {
  import opened Wrappers
  import opened ApplicationData
  import opened StepWiring
  import opened AdapterCallbacks
  import OnboardingStore
  import AISuggestions
  import OnboardingEvents
  import SuggestionCheckbox

  /** The prop handed to the `subscribeToUpdates` checkbox. */
  function SubscribeSuggestion(m: AISuggestions.Suggestions): (p: Option<FieldSuggestion<bool>>)
    ensures "subscribeToUpdates" !in m ==> p == None
    ensures "subscribeToUpdates" in m ==> p.Some? && (p.value.value <==> JsTruthy(m["subscribeToUpdates"].value))
  {
    FlagSuggestion(m, "subscribeToUpdates")
  }

  /**
   * The stored text "false" is suggested as a ticked box; the empty text and
   * the boolean `false` are suggested as an unticked one.
   */
  lemma FalseTextSuggestsTicked(m: AISuggestions.Suggestions, reasoning: Option<string>)
    ensures SubscribeSuggestion(m["subscribeToUpdates" := AISuggestions.Suggestion(AISuggestions.JsonString("false"), reasoning)]).value.value
    ensures !SubscribeSuggestion(m["subscribeToUpdates" := AISuggestions.Suggestion(AISuggestions.JsonString(""), reasoning)]).value.value
    ensures !SubscribeSuggestion(m["subscribeToUpdates" := AISuggestions.Suggestion(AISuggestions.JsonBool(false), reasoning)]).value.value
  {
  }

  /**
   * The subscribe event as its class defines it, a boolean `false`, is valid
   * and, once received, is suggested as an unticked box; `true` as a ticked one.
   */
  lemma SubscribeEventSuggestsItsFlag(m: AISuggestions.Suggestions, flag: bool, reasoning: Option<string>)
    ensures OnboardingEvents.SuggestionOk(OnboardingEvents.SubscribeToUpdates, AISuggestions.JsonBool(flag))
    ensures SubscribeSuggestion(AISuggestions.Handle(m,
              OnboardingEvents.ToMessage(OnboardingEvents.Event(OnboardingEvents.SubscribeToUpdates, AISuggestions.JsonBool(flag), reasoning)))).Some?
    ensures SubscribeSuggestion(AISuggestions.Handle(m,
              OnboardingEvents.ToMessage(OnboardingEvents.Event(OnboardingEvents.SubscribeToUpdates, AISuggestions.JsonBool(flag), reasoning)))).value.value
            == flag
  {
    OnboardingEvents.ValidEventIsStored(m, OnboardingEvents.Event(OnboardingEvents.SubscribeToUpdates, AISuggestions.JsonBool(flag), reasoning));
  }

  class AdditionalRequirementsStep {
    const store: OnboardingStore.PermitApplicationStore
    var form: AdditionalInfo

    constructor(store: OnboardingStore.PermitApplicationStore)
      ensures this.store == store && form == store.data.additional
    {
      this.store := store;
      form := store.data.additional;
    }

    /** The `subscribeToUpdates` checkbox's `onCheckedChange` (`field.onChange`). */
    method SetSubscribeToUpdates(v: bool)
      modifies this`form
      ensures form == old(form).(subscribeToUpdates := v)
    {
      form := form.(subscribeToUpdates := v);
    }

    /** `handleFormSubmit`: merge the whole group, mark step 4 completed, then `onNext`. */
    method HandleFormSubmit(formData: AdditionalInfo) returns (calls: seq<ParentCall>)
      requires store.Valid()
      modifies store`data, store`completedSteps
      ensures store.Valid()
      ensures store.data == old(store.data).(additional := formData)
      ensures store.completedSteps == old(store.completedSteps) + {4}
      ensures calls == [OnNext]
    {
      store.UpdateAdditionalRequirements(FullAdditionalPatch(formData));
      store.MarkStepCompleted(4);
      calls := [OnNext];
    }

    /** The checkbox's `onAccept`: write the field, then forward the boolean to `onAcceptSuggestion`. */
    method AcceptSubscribeToUpdates(value: bool) returns (calls: seq<ParentCall>)
      modifies this`form
      ensures form == old(form).(subscribeToUpdates := value)
      ensures calls == [ParentCall.AcceptSuggestion("subscribeToUpdates", Flag(value))]
    {
      form := form.(subscribeToUpdates := value);
      calls := [ParentCall.AcceptSuggestion("subscribeToUpdates", Flag(value))];
    }

    method RejectSubscribeToUpdates() returns (calls: seq<ParentCall>)
      ensures calls == [ParentCall.RejectSuggestion("subscribeToUpdates")]
    {
      calls := [ParentCall.RejectSuggestion("subscribeToUpdates")];
    }
  }

  /**
   * A socket message suggesting the text "false" for `subscribeToUpdates`
   * ticks the box on display, and Accept stores `true` in the form and
   * forwards `true`.
   */
  method FalseTextAccepted(reasoning: Option<string>)
    returns (shown: Option<bool>, forwarded: seq<ParentCall>, stored: bool)
    ensures shown == Some(true)
    ensures forwarded == [ParentCall.AcceptSuggestion("subscribeToUpdates", Flag(true))]
    ensures stored
  {
    var suggestions := new AISuggestions.SuggestionStore();
    suggestions.HandleWebSocketMessage(
      AISuggestions.Parsed(Some("subscribe_suggestion"), Some("subscribeToUpdates"), AISuggestions.JsonString("false"), reasoning));
    var store := new OnboardingStore.PermitApplicationStore();
    var step := new AdditionalRequirementsStep(store);
    var box := new SuggestionCheckbox.Checkbox(Some(step.form.subscribeToUpdates), None);
    box.SetProps(Some(step.form.subscribeToUpdates), SubscribeSuggestion(suggestions.suggestions));
    box.SuggestionEffect();
    shown := box.displayChecked;
    var accepted := box.HandleAccept();
    forwarded := step.AcceptSubscribeToUpdates(accepted[0].value);
    step.SetSubscribeToUpdates(accepted[1].value);
    stored := step.form.subscribeToUpdates;
  }

  /**
   * The subscribe event with its boolean `false`, received over the socket,
   * shows the box unticked, and Accept stores and forwards `false`.
   */
  method FalseFlagAccepted(reasoning: Option<string>)
    returns (shown: Option<bool>, forwarded: seq<ParentCall>, stored: bool)
    ensures shown == Some(false)
    ensures forwarded == [ParentCall.AcceptSuggestion("subscribeToUpdates", Flag(false))]
    ensures !stored
  {
    var e := OnboardingEvents.Event(OnboardingEvents.SubscribeToUpdates, AISuggestions.JsonBool(false), reasoning);
    var suggestions := new AISuggestions.SuggestionStore();
    suggestions.HandleWebSocketMessage(OnboardingEvents.ToMessage(e));
    SubscribeEventSuggestsItsFlag(map[], false, reasoning);
    var store := new OnboardingStore.PermitApplicationStore();
    var step := new AdditionalRequirementsStep(store);
    var box := new SuggestionCheckbox.Checkbox(Some(step.form.subscribeToUpdates), None);
    box.SetProps(Some(step.form.subscribeToUpdates), SubscribeSuggestion(suggestions.suggestions));
    box.SuggestionEffect();
    shown := box.displayChecked;
    var accepted := box.HandleAccept();
    forwarded := step.AcceptSubscribeToUpdates(accepted[0].value);
    step.SetSubscribeToUpdates(accepted[1].value);
    stored := step.form.subscribeToUpdates;
  }

  /** Submitting step 4 from a store with steps 1 to 3 completed leaves all four completed. */
  method SubmitCompletesAllSteps(formData: AdditionalInfo) returns (completed: set<int>, calls: seq<ParentCall>)
    ensures completed == {1, 2, 3, 4}
    ensures calls == [OnNext]
  {
    var store := new OnboardingStore.PermitApplicationStore();
    store.MarkStepCompleted(1);
    store.MarkStepCompleted(2);
    store.MarkStepCompleted(3);
    var step := new AdditionalRequirementsStep(store);
    calls := step.HandleFormSubmit(formData);
    completed := store.completedSteps;
  }
}
