# AIUI wizards: a verified model

AIUI has two multi-step form wizards, a permit application and an onboarding
flow, and both carry an AI-suggestion overlay. A backend publishes typed
suggestion events over a socket. The frontend keeps the latest suggestion per
field. Each form control is wrapped in an adapter that shows the suggested
value with Accept and Reject buttons.

This project models the parts of that system that decide state:

- **The two step-gating stores.** `PermitStore.PermitApplicationStore` and
  `OnboardingStore.PermitApplicationStore` are classes with the store's four
  state fields. Their actions are methods, and each method's contract ties it
  to one shared pure transition function, `StepGating.Apply`. The Python
  `OnboardingWizard` (`WizardModels`) ties its gating queries to the same rule.
- **The field record and its partial merges** (`ApplicationData`), and the
  emission-unit list operations.
- **The suggestion map and its socket-message recogniser** (`AISuggestions`).
- **The six suggestion adapters** (`SuggestionSelect`, `SuggestionCheckbox`,
  `SuggestionRadioGroup`, `SuggestionColorPicker`, `SuggestionInput`,
  `SuggestionTextarea`). Each React effect, handler and prop change is one
  atomic method. Callbacks the adapter makes are returned, in order, as a
  sequence of `AdapterCallbacks.Callback` values.
- **The four step components in the core**, which handle list toggles, unit
  add and remove, suggestion wiring and "submit marks step k completed":
  `PermitEmissionUnitsStep`, `PermitComplianceStep`,
  `OnboardingComplianceStep` and `OnboardingAdditionalStep`. Calls a step
  makes into the wizard that renders it (`onNext`, `onAcceptSuggestion`,
  `onRejectSuggestion`) are returned as `StepWiring.ParentCall` values.
- **The declarative validators.** These are the zod step schemas
  (`ValidationSchemas`), the pydantic field validators (`WizardModels`), and
  the two families of suggestion events (`OnboardingEvents`, `PermitEvents`).
  Each event class's `event_type` literal is written as its stem followed by
  `_suggestion`. The string is the one the class declares.

Shared helpers:

- `Text` covers JavaScript `trim` and Python `strip`, with their two
  whitespace sets.
- `Text` also covers UTF-16 length, the decimal-coordinate and hex-colour
  patterns, and prefix and suffix tests.
- `Lists` covers `filter`, the remove-all-occurrences and toggle idioms, and
  `map`-where-id-matches.
- `Wrappers` is `Option`/`Result`.

Scenario methods allocate fresh stores and adapters and run a source-level
interaction, for example "suggest, then accept, then submit". Their
`ensures` state what the user sees and which callbacks fire.

## Model

| member | source | states |
|---|---|---|
| StepGating.Clamp | src/store/usePermitApplicationStore.ts:114 | `Math.max(1, Math.min(4, s))` is in 1..4, is the identity inside that range, and maps every step below to 1 and every step above to 4 |
| StepGating.Apply | src/store/usePermitApplicationStore.ts:111-203 | one store action. Validity and the "never more than one step past the furthest completed step" invariant are preserved. Only reset removes completed steps. `setCurrentStep` moves to the clamped target exactly when it is accessible. `nextStep` moves up one exactly when the next step is ≤ 4 and accessible. `previousStep` moves down one exactly when above 1. Reset gives the initial state |
| StepGating.Run | src/store/usePermitApplicationStore.ts:105-203 | any trace of actions keeps the step in 1..4 and keeps the progress invariant. Without a reset in the trace, no completed step is lost |
| StepGating.ReachableStatesAreValid | src/store/usePermitApplicationStore.ts:106-192 | from the initial state, every trace ends with `currentStep` in 1..4 |
| StepGating.MarkStepCompletedIdempotent | src/store/usePermitApplicationStore.ts:199-203 | marking a step twice is marking it once |
| StepGating.AccessibilityMonotone | src/store/usePermitApplicationStore.ts:205-209 | completing more steps never makes a step inaccessible |
| StepGating.NextStepMovesIffCompleted | src/store/usePermitApplicationStore.ts:171-209 | `nextStep` changes the state exactly when the current step is below 4 and completed |
| StepGating.NextAfterMark | src/store/usePermitApplicationStore.ts:171-203 | marking the current step completed and then calling `nextStep` always advances by one below step 4 |
| StepGating.NothingCompletedStaysOnFirst | src/store/usePermitApplicationStore.ts:111-209 | from step 1 with nothing completed, no trace without `markStepCompleted` leaves step 1 or completes anything |
| PermitStore.MergeFacility | src/store/usePermitApplicationStore.ts:118-122 | each facility key given in the patch is overwritten and every other key is kept |
| PermitStore.PermitApplicationStore.constructor | src/store/usePermitApplicationStore.ts:73-109 | step 1, `initialData`, not completed, nothing completed |
| PermitStore.PermitApplicationStore.IsStepAccessible | src/store/usePermitApplicationStore.ts:205-209 | step 1 is accessible. Any other step is accessible iff step−1 is completed |
| PermitStore.PermitApplicationStore.SetCurrentStep | src/store/usePermitApplicationStore.ts:111-116 | inaccessible target: nothing changes. Otherwise the step becomes the clamped target |
| PermitStore.PermitApplicationStore.UpdateFacilityInfo | src/store/usePermitApplicationStore.ts:118-122 | only the facility group changes, by `MergeFacility` |
| PermitStore.PermitApplicationStore.UpdateEmissionUnits | src/store/usePermitApplicationStore.ts:124-128 | only the emissions group changes, by `MergeEmission` |
| PermitStore.PermitApplicationStore.UpdateComplianceInfo | src/store/usePermitApplicationStore.ts:130-134 | only the compliance group changes, by `MergeCompliance` |
| PermitStore.PermitApplicationStore.UpdateAdditionalRequirements | src/store/usePermitApplicationStore.ts:136-140 | only the additional group changes, by `MergeAdditional` |
| PermitStore.PermitApplicationStore.AddEmissionUnit | src/store/usePermitApplicationStore.ts:142-149 | the unit is appended at the end and nothing else changes |
| PermitStore.PermitApplicationStore.RemoveEmissionUnit | src/store/usePermitApplicationStore.ts:151-158 | the list becomes `RemoveUnitsById` of the old list and nothing else changes |
| PermitStore.PermitApplicationStore.UpdateEmissionUnit | src/store/usePermitApplicationStore.ts:160-169 | the list becomes `UpdateUnitsById` of the old list and nothing else changes |
| PermitStore.PermitApplicationStore.NextStep | src/store/usePermitApplicationStore.ts:171-177 | advances by one exactly when step+1 ≤ 4 and accessible. Otherwise the step is unchanged |
| PermitStore.PermitApplicationStore.PreviousStep | src/store/usePermitApplicationStore.ts:179-184 | decrements exactly when above 1 |
| PermitStore.PermitApplicationStore.CompleteApplication | src/store/usePermitApplicationStore.ts:186-188 | sets only `isCompleted` |
| PermitStore.PermitApplicationStore.ResetApplication | src/store/usePermitApplicationStore.ts:190-197 | step 1, `initialData`, not completed, nothing completed |
| PermitStore.PermitApplicationStore.MarkStepCompleted | src/store/usePermitApplicationStore.ts:199-203 | adds the step and leaves step, data and `isCompleted` alone |
| OnboardingStore.MergeFacility | src/store/useOnboardingStore.ts:99-103 | each facility key given is overwritten and every other key is kept |
| OnboardingStore.PermitApplicationStore.constructor | src/store/useOnboardingStore.ts:62-90 | step 1, the onboarding `initialData` (industry 'other', method 'periodic'), nothing completed |
| OnboardingStore.PermitApplicationStore.IsStepAccessible | src/store/useOnboardingStore.ts:157-161 | step 1 is accessible. Any other step is accessible iff step−1 is completed |
| OnboardingStore.PermitApplicationStore.SetCurrentStep | src/store/useOnboardingStore.ts:92-97 | a no-op when the target is inaccessible. Otherwise the step becomes the clamped target |
| OnboardingStore.PermitApplicationStore.UpdateFacilityInfo | src/store/useOnboardingStore.ts:99-103 | only the facility group changes |
| OnboardingStore.PermitApplicationStore.UpdateEmissionUnits | src/store/useOnboardingStore.ts:105-109 | only the emissions group changes |
| OnboardingStore.PermitApplicationStore.UpdateCompliance | src/store/useOnboardingStore.ts:111-115 | only the compliance group changes |
| OnboardingStore.PermitApplicationStore.UpdateAdditionalRequirements | src/store/useOnboardingStore.ts:117-121 | only the additional group changes |
| OnboardingStore.PermitApplicationStore.NextStep | src/store/useOnboardingStore.ts:123-129 | gated, and never beyond 4 |
| OnboardingStore.PermitApplicationStore.PreviousStep | src/store/useOnboardingStore.ts:131-136 | never below 1 |
| OnboardingStore.PermitApplicationStore.CompleteApplication | src/store/useOnboardingStore.ts:138-140 | sets only `isCompleted` |
| OnboardingStore.PermitApplicationStore.ResetApplication | src/store/useOnboardingStore.ts:142-149 | restores the onboarding `initialData`, step 1, no completed steps, not completed |
| OnboardingStore.PermitApplicationStore.MarkStepCompleted | src/store/useOnboardingStore.ts:151-155 | adds the step and is monotone |
| ApplicationData.MergeUnit | src/store/usePermitApplicationStore.ts:165 | `{ ...unit, ...updates }`: given keys overwrite and the others are kept |
| ApplicationData.RemoveUnitsById | src/store/usePermitApplicationStore.ts:151-158 | no kept unit has the id. Every kept unit was in the list. Units with other ids keep their multiplicity. A list without the id is unchanged |
| ApplicationData.RemoveUnitsByIdAppend | src/store/usePermitApplicationStore.ts:155 | removal distributes over concatenation, so the order of the kept units is the original order |
| ApplicationData.AppendThenRemoveUnit | src/store/usePermitApplicationStore.ts:142-158 | adding a unit and removing its id gives the list with that id removed, which is the original list when the id was new |
| ApplicationData.RemoveSoleUnit | src/store/usePermitApplicationStore.ts:151-158 | removing the id of the only unit empties the list |
| ApplicationData.UpdateUnitsById | src/store/usePermitApplicationStore.ts:160-169 | the length is kept. Units with the id are merged and every other unit is unchanged |
| ApplicationData.MergeEmission | src/store/usePermitApplicationStore.ts:124-128 | each emission key given overwrites and the others are kept |
| ApplicationData.MergeCompliance | src/store/usePermitApplicationStore.ts:130-134 | each compliance key given overwrites and the others are kept |
| ApplicationData.MergeAdditional | src/store/usePermitApplicationStore.ts:136-140 | each additional key given overwrites and the others are kept |
| ApplicationData.MergeEmissionIdempotent | src/store/usePermitApplicationStore.ts:124-128 | applying the same patch twice is applying it once, and the empty patch changes nothing |
| ApplicationData.MergeComplianceIdempotent | src/store/usePermitApplicationStore.ts:130-134 | applying the same patch twice is applying it once, and the empty patch changes nothing |
| ApplicationData.FullEmissionPatch | src/components/permit-application/EmissionUnitsStep.tsx:68-72 | merging a whole submitted group yields exactly that group, whatever was stored |
| ApplicationData.FullCompliancePatch | src/components/permit-application/ComplianceStep.tsx:52-56 | merging a whole submitted group yields exactly that group |
| ApplicationData.FullAdditionalPatch | src/components/onboarding/AdditionalRequirementsStep.tsx:31-35 | merging a whole submitted group yields exactly that group |
| Lists.Filter | src/store/usePermitApplicationStore.ts:155 | `filter`: every result element passes. Passing elements keep their multiplicity. Failing ones are gone. An all-passing list is unchanged |
| Lists.FilterKeepsOnlyMembers | src/store/usePermitApplicationStore.ts:155 | `filter` introduces no new element |
| Lists.FilterAppend | src/store/usePermitApplicationStore.ts:155 | `filter` distributes over concatenation, which keeps the order |
| Lists.Without | src/components/permit-application/ComplianceStep.tsx:61 | `filter(r => r !== x)`: x is gone and every other element keeps its multiplicity |
| Lists.WithoutAppend | src/components/onboarding/ComplianceStep.tsx:60-61 | removal distributes over concatenation |
| Lists.WithoutTwoAppended | src/components/onboarding/ComplianceStep.tsx:57-63 | two copies of an element appended to a list without it are both removed by one untick, giving the list back |
| Lists.Toggle | src/components/permit-application/ComplianceStep.tsx:58-65 | x is present afterwards iff it was absent before. Other elements keep their multiplicity. Present: drop all occurrences. Absent: append |
| Lists.ToggleTwiceRestores | src/components/permit-application/ComplianceStep.tsx:58-65 | toggling an absent element twice restores the list |
| Lists.MapWhere | src/store/usePermitApplicationStore.ts:164-166 | `map`: the length is kept. Picked elements are transformed and the others are unchanged |
| Lists.MapWhereNothingPicked | src/store/usePermitApplicationStore.ts:164-166 | with no id match the list is unchanged |
| AISuggestions.FieldKey | src/hooks/useAISuggestions.ts:40 | the key is the message's `field_name`. An absent one becomes the key "undefined" |
| AISuggestions.Upsert | src/hooks/useAISuggestions.ts:15-20 | the field maps to the new suggestion. Keys are the old keys plus the field. Other entries are untouched |
| AISuggestions.Delete | src/hooks/useAISuggestions.ts:22-28 | the field is absent afterwards. Other entries are untouched. A no-op when the field was absent |
| AISuggestions.Handle | src/hooks/useAISuggestions.ts:34-50 | a parsed message with an `event_type` ending in `_suggestion` upserts `field_name` ↦ {suggestion, reasoning}. Every other message, malformed ones included, leaves the map unchanged |
| AISuggestions.SuggestionStore.constructor | src/hooks/useAISuggestions.ts:13 | the hook starts with no suggestions |
| AISuggestions.UpsertLastWriteWins | src/hooks/useAISuggestions.ts:15-20 | two adds for the same field keep only the second |
| AISuggestions.UpsertCommutes | src/hooks/useAISuggestions.ts:15-20 | adds to different fields commute |
| AISuggestions.AddThenRemove | src/hooks/useAISuggestions.ts:15-28 | add then remove of a field leaves it absent, and restores the map when the field was new |
| AISuggestions.DeleteIdempotent | src/hooks/useAISuggestions.ts:22-28 | removing twice is removing once |
| AISuggestions.HandleChangesOnlyTheMessageField | src/hooks/useAISuggestions.ts:39-46 | a message touches no entry except its own field, and changes the map only when it is a suggestion event |
| AISuggestions.EmptyEventTypeNeverMatches | src/hooks/useAISuggestions.ts:39 | the empty `event_type` does not end in `_suggestion` |
| AISuggestions.SuggestionStore.AddSuggestion | src/hooks/useAISuggestions.ts:15-20 | the state becomes `Upsert` of the old state |
| AISuggestions.SuggestionStore.RemoveSuggestion | src/hooks/useAISuggestions.ts:22-28 | the state becomes `Delete` of the old state |
| AISuggestions.SuggestionStore.GetSuggestion | src/hooks/useAISuggestions.ts:30-32 | returns exactly the current entry, or none, and reads only |
| AISuggestions.SuggestionStore.HandleWebSocketMessage | src/hooks/useAISuggestions.ts:34-50 | the state becomes `Handle` of the old state |
| AISuggestions.AddAddRemoveScenario | src/hooks/useAISuggestions.ts:15-32 | after two adds, `getSuggestion` gives the second. After a remove it gives nothing |
| SuggestionSelect.Select.SuggestionEffect | src/components/ui/suggestion-select.tsx:39-44 | a present suggestion shows and displays its value, even over an earlier one. None leaves the state alone |
| SuggestionSelect.Select.constructor | src/components/ui/suggestion-select.tsx:36-37 | not showing, displaying the bound value |
| SuggestionSelect.Select.SetProps | src/components/ui/suggestion-select.tsx:26-34 | a re-render replaces the props and leaves the adapter's own state alone |
| SuggestionSelect.Select.ValueEffect | src/components/ui/suggestion-select.tsx:46-50 | while not showing, the display follows the bound value |
| SuggestionSelect.Select.UserSelect | src/components/ui/suggestion-select.tsx:70 | a selection is forwarded to `onValueChange` only while not showing |
| SuggestionSelect.Select.ControlsShown | src/components/ui/suggestion-select.tsx:84 | Accept/Reject exist iff showing and a suggestion is present |
| SuggestionSelect.Select.HandleAccept | src/components/ui/suggestion-select.tsx:52-58 | with a suggestion: `onAccept(v)`, then `onValueChange(v)`, then hide. Without one: nothing |
| SuggestionSelect.Select.HandleReject | src/components/ui/suggestion-select.tsx:60-64 | `onReject`, hide, and display the bound value |
| SuggestionSelect.TwoSuggestionsThenAccept | src/components/ui/suggestion-select.tsx:39-70 | a second suggestion replaces the first on display, a user pick is dropped, and Accept commits the second |
| SuggestionSelect.SuggestThenReject | src/components/ui/suggestion-select.tsx:39-70 | after Reject the bound value is shown and user picks are forwarded again |
| SuggestionCheckbox.Checkbox.SuggestionEffect | src/components/ui/suggestion-checkbox.tsx:34-39 | any defined suggestion, `false` included, shows and displays its boolean |
| SuggestionCheckbox.Checkbox.constructor | src/components/ui/suggestion-checkbox.tsx:31-32 | not showing, displaying `checked` |
| SuggestionCheckbox.Checkbox.SetProps | src/components/ui/suggestion-checkbox.tsx:21-30 | a re-render replaces the props and leaves the adapter's own state alone |
| SuggestionCheckbox.Checkbox.ValueEffect | src/components/ui/suggestion-checkbox.tsx:41-45 | while not showing, the display follows `checked` |
| SuggestionCheckbox.Checkbox.UserToggle | src/components/ui/suggestion-checkbox.tsx:66 | toggles are forwarded only while not showing |
| SuggestionCheckbox.Checkbox.PointerEventsDisabled | src/components/ui/suggestion-checkbox.tsx:70 | pointer events are off iff showing |
| SuggestionCheckbox.Checkbox.ControlsShown | src/components/ui/suggestion-checkbox.tsx:73 | the controls exist iff showing and a suggestion is defined |
| SuggestionCheckbox.Checkbox.HandleAccept | src/components/ui/suggestion-checkbox.tsx:47-53 | `onAccept(b)`, `onCheckedChange(b)`, hide. A no-op without a suggestion |
| SuggestionCheckbox.Checkbox.HandleReject | src/components/ui/suggestion-checkbox.tsx:55-59 | `onReject`, hide, and display `checked` |
| SuggestionCheckbox.FalseSuggestionShows | src/components/ui/suggestion-checkbox.tsx:34-66 | a `false` suggestion shows an unchecked box, blocks toggles, and accepts `false` |
| SuggestionCheckbox.SuggestThenReject | src/components/ui/suggestion-checkbox.tsx:34-73 | Reject restores the bound value and removes the controls |
| SuggestionRadioGroup.JsOr | src/components/ui/suggestion-radio-group.tsx:32 | `value \|\| defaultValue`: a non-empty value wins. An empty or absent one yields the default |
| SuggestionRadioGroup.RadioGroup.constructor | src/components/ui/suggestion-radio-group.tsx:31-32 | the display starts at `value \|\| defaultValue`, not showing |
| SuggestionRadioGroup.RadioGroup.SuggestionEffect | src/components/ui/suggestion-radio-group.tsx:34-39 | a present suggestion shows and displays its value |
| SuggestionRadioGroup.RadioGroup.SetProps | src/components/ui/suggestion-radio-group.tsx:21-30 | a re-render replaces the props and leaves the adapter's own state alone |
| SuggestionRadioGroup.RadioGroup.ValueEffect | src/components/ui/suggestion-radio-group.tsx:41-45 | while not showing, the display is `value` (not the default) |
| SuggestionRadioGroup.RadioGroup.UserChoose | src/components/ui/suggestion-radio-group.tsx:65 | choices are forwarded only while not showing |
| SuggestionRadioGroup.RadioGroup.ControlsShown | src/components/ui/suggestion-radio-group.tsx:74 | the controls exist iff showing and a suggestion is present |
| SuggestionRadioGroup.RadioGroup.HandleAccept | src/components/ui/suggestion-radio-group.tsx:47-53 | `onAccept(v)`, `onValueChange(v)`, hide. A no-op without a suggestion |
| SuggestionRadioGroup.RadioGroup.HandleReject | src/components/ui/suggestion-radio-group.tsx:55-59 | `onReject`, hide, and display `value`, not `defaultValue` |
| SuggestionRadioGroup.DefaultOnlyBeforeValueEffect | src/components/ui/suggestion-radio-group.tsx:32-59 | with no value the default shows first, and the value effect and Reject both replace it by the absent value |
| SuggestionRadioGroup.SuggestThenAccept | src/components/ui/suggestion-radio-group.tsx:34-74 | a shown suggestion blocks choices, and Accept commits it and removes the controls |
| SuggestionColorPicker.PresetColorsAreHex | src/components/ui/suggestion-color-picker.tsx:7-16 | the eight presets are all `#RRGGBB` hex colours |
| SuggestionColorPicker.ColorPicker.SuggestionEffect | src/components/ui/suggestion-color-picker.tsx:39-44 | a present suggestion shows and displays its colour |
| SuggestionColorPicker.ColorPicker.constructor | src/components/ui/suggestion-color-picker.tsx:36-37 | not showing, displaying `value` |
| SuggestionColorPicker.ColorPicker.SetProps | src/components/ui/suggestion-color-picker.tsx:29-35 | a re-render replaces the props and leaves the adapter's own state alone |
| SuggestionColorPicker.ColorPicker.ValueEffect | src/components/ui/suggestion-color-picker.tsx:46-50 | while not showing, the display follows `value` |
| SuggestionColorPicker.ColorPicker.HandleColorSelect | src/components/ui/suggestion-color-picker.tsx:66-70 | `onChange(color)` only while not showing |
| SuggestionColorPicker.ColorPicker.PresetsDisabled | src/components/ui/suggestion-color-picker.tsx:84 | presets are disabled iff showing |
| SuggestionColorPicker.ColorPicker.CustomReadOnly | src/components/ui/suggestion-color-picker.tsx:103 | the custom input is read-only iff showing |
| SuggestionColorPicker.ColorPicker.ControlsShown | src/components/ui/suggestion-color-picker.tsx:112 | the controls exist iff showing and a suggestion is present |
| SuggestionColorPicker.ColorPicker.HandleAccept | src/components/ui/suggestion-color-picker.tsx:52-58 | `onAccept(c)`, then `onChange(c)`, then hide. A no-op without a suggestion |
| SuggestionColorPicker.ColorPicker.HandleReject | src/components/ui/suggestion-color-picker.tsx:60-64 | `onReject`, hide, and display `value` |
| SuggestionColorPicker.PresetBlockedWhileSuggested | src/components/ui/suggestion-color-picker.tsx:39-70 | a preset click is dropped while suggested and forwarded after Reject |
| SuggestionColorPicker.SuggestThenAccept | src/components/ui/suggestion-color-picker.tsx:39-84 | Accept commits the suggested colour and unlocks the presets |
| SuggestionInput.Input.SuggestionEffect | src/components/ui/suggestion-input.tsx:24-28 | a present suggestion sets showing. There is no display state |
| SuggestionInput.Input.constructor | src/components/ui/suggestion-input.tsx:22 | not showing |
| SuggestionInput.Input.SetProps | src/components/ui/suggestion-input.tsx:16-21 | a re-render replaces the props and leaves `showSuggestion` alone |
| SuggestionInput.Input.EnhancedChild | src/components/ui/suggestion-input.tsx:43-51 | the value is the suggestion's iff showing with a suggestion, and the child's own otherwise. Disabled is forced while showing. `readOnly` passes through |
| SuggestionInput.Input.ControlsShown | src/components/ui/suggestion-input.tsx:56 | the controls exist iff showing and a suggestion is present |
| SuggestionInput.Input.HandleAccept | src/components/ui/suggestion-input.tsx:30-35 | only `onAccept(v)`, no change handler, then hide. A no-op without a suggestion |
| SuggestionInput.Input.HandleReject | src/components/ui/suggestion-input.tsx:37-40 | `onReject` and hide |
| SuggestionInput.SuggestThenAccept | src/components/ui/suggestion-input.tsx:24-51 | while suggested the child shows the suggestion disabled. After Accept it is the child's own props again |
| SuggestionTextarea.Textarea.SuggestionEffect | src/components/ui/suggestion-textarea.tsx:24-28 | a present suggestion sets showing |
| SuggestionTextarea.Textarea.constructor | src/components/ui/suggestion-textarea.tsx:22 | not showing |
| SuggestionTextarea.Textarea.SetProps | src/components/ui/suggestion-textarea.tsx:16-21 | a re-render replaces the props and leaves `showSuggestion` alone |
| SuggestionTextarea.Textarea.EnhancedChild | src/components/ui/suggestion-textarea.tsx:42-55 | the value is the suggestion's iff showing with a suggestion. `readOnly` is forced while showing. `disabled` always passes through |
| SuggestionTextarea.Textarea.ControlsShown | src/components/ui/suggestion-textarea.tsx:60 | the controls exist iff showing and a suggestion is present |
| SuggestionTextarea.Textarea.HandleAccept | src/components/ui/suggestion-textarea.tsx:30-35 | `onAccept(v)` and hide. A no-op without a suggestion |
| SuggestionTextarea.Textarea.HandleReject | src/components/ui/suggestion-textarea.tsx:37-40 | `onReject` and hide |
| SuggestionTextarea.SuggestThenReject | src/components/ui/suggestion-textarea.tsx:24-55 | while suggested the child is read-only with the suggestion and keeps its `disabled`. After Reject it is the child's own props again |
| StepWiring.JsString | src/components/permit-application/EmissionUnitsStep.tsx:125-131 | `String(v)`: a JSON string is its own text, a boolean is "true" or "false" |
| StepWiring.TextSuggestion | src/components/permit-application/EmissionUnitsStep.tsx:125-131 | `suggestions[field]` as a text prop: present iff stored, carrying the stored string |
| StepWiring.JsBoolean | src/components/onboarding/AdditionalRequirementsStep.tsx:107 | `Boolean(s)` on a string is true iff the string is non-empty |
| StepWiring.JsBooleanOfFalseText | src/components/onboarding/AdditionalRequirementsStep.tsx:107 | "false" and "0" coerce to true. Only "" coerces to false |
| StepWiring.JsTruthy | src/components/onboarding/AdditionalRequirementsStep.tsx:107 | `Boolean(v)` on a JSON value: a boolean is itself, a string is true iff non-empty |
| StepWiring.JsTruthyOfFalse | src/components/onboarding/AdditionalRequirementsStep.tsx:107 | the boolean `false` coerces to false while the text "false" coerces to true |
| StepWiring.FlagSuggestion | src/components/onboarding/AdditionalRequirementsStep.tsx:106-109 | a checkbox prop is present iff stored, ticked iff `Boolean()` of the stored value holds: the stored boolean itself, or a non-empty stored text |
| PermitEmissionUnitsStep.AddButtonDisabled | src/components/permit-application/EmissionUnitsStep.tsx:256 | the add button is disabled exactly when the add guard fails |
| PermitEmissionUnitsStep.UnitFromDraft | src/components/permit-application/EmissionUnitsStep.tsx:76-82 | the new unit takes the given id and the draft's fields, which the guard makes non-empty |
| PermitEmissionUnitsStep.WriteField | src/components/permit-application/EmissionUnitsStep.tsx:127-130 | Accept writes exactly the suggested field of the form (the estimate's adapter, at lines 337-340, does the same) |
| PermitEmissionUnitsStep.FieldName | src/components/permit-application/EmissionUnitsStep.tsx:131 | the two suggested fields are keyed `primaryOperations` and `estimatedAnnualEmissions` |
| PermitEmissionUnitsStep.EmissionUnitsStep.constructor | src/components/permit-application/EmissionUnitsStep.tsx:48-66 | the form starts from the stored emissions group, the panel closed and the draft empty |
| PermitEmissionUnitsStep.EmissionUnitsStep.ToggleAddPanel | src/components/permit-application/EmissionUnitsStep.tsx:157 | the header button flips the panel |
| PermitEmissionUnitsStep.EmissionUnitsStep.CancelAdd | src/components/permit-application/EmissionUnitsStep.tsx:245-248 | Cancel closes the panel and resets the draft |
| PermitEmissionUnitsStep.EmissionUnitsStep.SetUnitType | src/components/permit-application/EmissionUnitsStep.tsx:199 | only the draft's unit type changes |
| PermitEmissionUnitsStep.EmissionUnitsStep.SetDescription | src/components/permit-application/EmissionUnitsStep.tsx:216 | only the draft's description changes |
| PermitEmissionUnitsStep.EmissionUnitsStep.SetControlDevice | src/components/permit-application/EmissionUnitsStep.tsx:237 | only the draft's control device changes |
| PermitEmissionUnitsStep.EmissionUnitsStep.TogglePollutant | src/components/permit-application/EmissionUnitsStep.tsx:95-102 | present → drop all occurrences, absent → append. The pollutant is in the draft afterwards iff it was absent |
| PermitEmissionUnitsStep.EmissionUnitsStep.HandleAddUnit | src/components/permit-application/EmissionUnitsStep.tsx:74-88 | guard fails: nothing changes. Guard holds: the unit is appended to the store list and to the form list, the draft is emptied and the panel closes |
| PermitEmissionUnitsStep.EmissionUnitsStep.HandleRemoveUnit | src/components/permit-application/EmissionUnitsStep.tsx:90-93 | every unit with the id leaves both the store and the form list |
| PermitEmissionUnitsStep.EmissionUnitsStep.HandleFormSubmit | src/components/permit-application/EmissionUnitsStep.tsx:68-72 | the emissions group becomes the submitted one, step 2 is completed, then `onNext` |
| PermitEmissionUnitsStep.EmissionUnitsStep.Submit | src/components/permit-application/EmissionUnitsStep.tsx:68-72 | the handler runs, on the trimmed values, only when the step schema accepts the form. Otherwise nothing changes |
| PermitEmissionUnitsStep.EmissionUnitsStep.AcceptSuggestion | src/components/permit-application/EmissionUnitsStep.tsx:127-130 | writes the field, then forwards the value to `onAcceptSuggestion` (likewise at lines 337-340) |
| PermitEmissionUnitsStep.EmissionUnitsStep.RejectSuggestion | src/components/permit-application/EmissionUnitsStep.tsx:131 | forwards `onRejectSuggestion` with the field's key, as line 341 does for the estimate. The form is untouched |
| PermitEmissionUnitsStep.SubmitThenNextReachesStepThree | src/components/permit-application/EmissionUnitsStep.tsx:68-72 | with step 1 done, submitting on step 2 and calling `nextStep` reaches step 3 |
| PermitEmissionUnitsStep.AddThenRemoveUnit | src/components/permit-application/EmissionUnitsStep.tsx:74-102 | a filled draft becomes one listed unit, and removing its id empties both lists again |
| PermitEmissionUnitsStep.AcceptPrimaryOperationsSuggestion | src/components/permit-application/EmissionUnitsStep.tsx:125-131 | a stored suggestion reaches the textarea, and Accept writes it into the form and forwards it |
| PermitComplianceStep.DefaultForm | src/components/permit-application/ComplianceStep.tsx:41-50 | the stored group as form defaults, with an unset method '' given as `undefined` |
| PermitComplianceStep.DefaultFormRoundTrip | src/components/permit-application/ComplianceStep.tsx:41-50 | a successful parse of the defaults gives the stored group back. An unset method is reported as an error |
| PermitComplianceStep.ComplianceStep.constructor | src/components/permit-application/ComplianceStep.tsx:41-50 | the form starts from `DefaultForm` of the stored group |
| PermitComplianceStep.ComplianceStep.ToggleMonitoringRequirement | src/components/permit-application/ComplianceStep.tsx:58-65 | the requirement is listed afterwards iff it was not before, and the list becomes `Toggle` of the old list |
| PermitComplianceStep.ComplianceStep.SetComplianceMethod | src/components/permit-application/ComplianceStep.tsx:198 | only the method changes |
| PermitComplianceStep.ComplianceStep.HandleFormSubmit | src/components/permit-application/ComplianceStep.tsx:52-56 | the compliance group becomes the submitted one, step 3 is completed, then `onNext` |
| PermitComplianceStep.ComplianceStep.Submit | src/components/permit-application/ComplianceStep.tsx:52-56 | the handler runs only on values the schema accepts |
| PermitComplianceStep.ComplianceStep.AcceptComplianceMethod | src/components/permit-application/ComplianceStep.tsx:200-203 | writes the field, then forwards to `onAcceptSuggestion` |
| PermitComplianceStep.ComplianceStep.RejectComplianceMethod | src/components/permit-application/ComplianceStep.tsx:204 | forwards `onRejectSuggestion("complianceMethod")` |
| PermitComplianceStep.ToggleTwiceScenario | src/components/permit-application/ComplianceStep.tsx:58-65 | toggling an absent requirement twice restores the stored list |
| PermitComplianceStep.AcceptedMethodCompletesStep | src/components/permit-application/ComplianceStep.tsx:52-204 | an accepted listed method plus one requirement lets the submit complete step 3 |
| OnboardingComplianceStep.ComplianceStep.HandleMonitoringChange | src/components/onboarding/ComplianceStep.tsx:57-63 | a tick appends even when the value is already listed (its count rises by one). An untick removes every occurrence. Other values keep their counts |
| OnboardingComplianceStep.ComplianceStep.constructor | src/components/onboarding/ComplianceStep.tsx:40-49 | the form starts from the stored compliance group as it is |
| OnboardingComplianceStep.ComplianceStep.SetSubjectToNSR | src/components/onboarding/ComplianceStep.tsx:85 | only `subjectToNSR` changes |
| OnboardingComplianceStep.ComplianceStep.SetComplianceMethod | src/components/onboarding/ComplianceStep.tsx:159 | only the method changes |
| OnboardingComplianceStep.ComplianceStep.HandleFormSubmit | src/components/onboarding/ComplianceStep.tsx:51-55 | `updateCompliance` with the group, step 3 completed, then `onNext` |
| OnboardingComplianceStep.ComplianceStep.AcceptComplianceMethod | src/components/onboarding/ComplianceStep.tsx:161-164 | writes the field, then forwards |
| OnboardingComplianceStep.ComplianceStep.RejectComplianceMethod | src/components/onboarding/ComplianceStep.tsx:165 | forwards `onRejectSuggestion("complianceMethod")` |
| OnboardingComplianceStep.TickTwiceThenUntick | src/components/onboarding/ComplianceStep.tsx:57-63 | two ticks list the option twice, and one untick removes both copies |
| OnboardingComplianceStep.FlagCheckboxNeverSuggests | src/components/onboarding/ComplianceStep.tsx:83-197 | a checkbox with no suggestion never shows controls, forwards ticks to the form, and its Accept does nothing |
| OnboardingAdditionalStep.SubscribeSuggestion | src/components/onboarding/AdditionalRequirementsStep.tsx:106-109 | no stored entry gives `undefined`. A stored entry is ticked iff `Boolean()` of its value holds |
| OnboardingAdditionalStep.FalseTextSuggestsTicked | src/components/onboarding/AdditionalRequirementsStep.tsx:106-109 | the stored text "false" is suggested as ticked; the text "" and the boolean `false` as unticked |
| OnboardingAdditionalStep.SubscribeEventSuggestsItsFlag | backend/wizard_events.py:120-124 | the subscribe event with a boolean is valid, and once received the checkbox is suggested ticked iff that boolean is `true` |
| OnboardingAdditionalStep.AdditionalRequirementsStep.constructor | src/components/onboarding/AdditionalRequirementsStep.tsx:22-29 | the form starts from the stored additional group |
| OnboardingAdditionalStep.AdditionalRequirementsStep.SetSubscribeToUpdates | src/components/onboarding/AdditionalRequirementsStep.tsx:105 | only `subscribeToUpdates` changes |
| OnboardingAdditionalStep.AdditionalRequirementsStep.HandleFormSubmit | src/components/onboarding/AdditionalRequirementsStep.tsx:31-35 | the additional group becomes the submitted one, step 4 is completed, then `onNext` |
| OnboardingAdditionalStep.AdditionalRequirementsStep.AcceptSubscribeToUpdates | src/components/onboarding/AdditionalRequirementsStep.tsx:110-113 | writes the field, then forwards the boolean |
| OnboardingAdditionalStep.AdditionalRequirementsStep.RejectSubscribeToUpdates | src/components/onboarding/AdditionalRequirementsStep.tsx:114 | forwards `onRejectSuggestion("subscribeToUpdates")` |
| OnboardingAdditionalStep.FalseTextAccepted | src/components/onboarding/AdditionalRequirementsStep.tsx:103-115 | a socket message carrying "false" shows a ticked box, and Accept stores and forwards `true` |
| OnboardingAdditionalStep.FalseFlagAccepted | src/components/onboarding/AdditionalRequirementsStep.tsx:103-115 | the subscribe event carrying the boolean `false` shows an unticked box, and Accept stores and forwards `false` |
| OnboardingAdditionalStep.SubmitCompletesAllSteps | src/components/onboarding/AdditionalRequirementsStep.tsx:31-35 | with steps 1–3 done, submitting step 4 leaves all four completed |
| Text.Trim | src/lib/validationSchemas.ts:5 | the result is the contiguous middle of the input between whitespace runs. It has no whitespace at either end, and it is empty iff the input is all whitespace |
| Text.TrimIdempotent | src/lib/validationSchemas.ts:5 | trimming twice is trimming once |
| Text.JsLength | src/lib/validationSchemas.ts:5 | the UTF-16 length counts two units per astral character, so it is at least the code-point count |
| Text.MatchesDecimalIsShape | src/lib/validationSchemas.ts:9-10 | `^-?\d{1,w}\.\d+$` holds iff the string splits as sign, 1..w digits, '.', one or more digits |
| ValidationSchemas.ParseFacility | src/lib/validationSchemas.ts:4-15 | success iff every facility field passes. A failure names exactly the failing fields. A success returns the trimmed record |
| ValidationSchemas.TrimFacilityIdempotent | src/lib/validationSchemas.ts:4-15 | trimming the record twice is trimming it once |
| ValidationSchemas.TrimFacilityKeepsVerdicts | src/lib/validationSchemas.ts:4-15 | each field's verdict is the same on the trimmed record |
| ValidationSchemas.ParseFacilityIdempotent | src/lib/validationSchemas.ts:4-15 | re-parsing a parsed record returns it unchanged |
| ValidationSchemas.InitialFacilityRejected | src/lib/validationSchemas.ts:4-15 | the store's initial facility fails on every field, `industryType` '' included |
| ValidationSchemas.MessageExamplesAccepted | src/lib/validationSchemas.ts:9-11 | the placeholders' own examples satisfy the latitude, longitude and RN patterns |
| ValidationSchemas.LatitudeExampleAccepted | src/lib/validationSchemas.ts:9 | "29.738333" matches the latitude pattern |
| ValidationSchemas.LongitudeExampleAccepted | src/lib/validationSchemas.ts:10 | "-95.168056" matches the longitude pattern |
| ValidationSchemas.RegulatedEntityNumberExampleAccepted | src/lib/validationSchemas.ts:11 | "RN123456789" matches the RN pattern |
| ValidationSchemas.TrimUnits | src/lib/validationSchemas.ts:18-24 | the length is kept, each unit's description is trimmed, and valid units stay valid |
| ValidationSchemas.TrimEmissionKeepsVerdicts | src/lib/validationSchemas.ts:26-33 | trimming keeps every passing emission field passing |
| ValidationSchemas.ParseEmission | src/lib/validationSchemas.ts:18-33 | success iff operations 20..500 trimmed, at least one valid unit, and a non-empty trimmed estimate. Failures name exactly the failing fields |
| ValidationSchemas.InitialEmissionRejected | src/lib/validationSchemas.ts:26-33 | the initial emissions group fails on all three fields |
| ValidationSchemas.ParseCompliance | src/lib/validationSchemas.ts:36-44 | success iff at least one requirement and a method from the four. Failures name exactly the failing fields |
| ValidationSchemas.ParseAdditional | src/lib/validationSchemas.ts:47-51 | every three-boolean record passes unchanged |
| WizardModels.StepOf | backend/wizard_models.py:225-239 | each form's step is in 1..4 |
| WizardModels.FormsInStepOrder | backend/wizard_models.py:234-239 | `forms[i]` is the form of step i+1 |
| WizardModels.OnboardingWizard.constructor | backend/wizard_models.py:241-247 | a validated wizard has its step in 1..4 and nothing completed |
| WizardModels.OnboardingWizard.GetCurrentForm | backend/wizard_models.py:249-251 | returns the form whose step is the current step |
| WizardModels.OnboardingWizard.IsStepAccessible | backend/wizard_models.py:253-257 | step 1 is accessible. Otherwise iff step−1 is completed, the same rule as the stores |
| WizardModels.OnboardingWizard.MarkStepCompleted | backend/wizard_models.py:259-261 | adds the step |
| WizardModels.OnboardingWizard.CanProceed | backend/wizard_models.py:263-265 | holds iff the current step is completed, which is exactly when the next step is accessible |
| WizardModels.MarkThenProceed | backend/wizard_models.py:259-265 | marking twice equals marking once, and the wizard can then proceed |
| WizardModels.StripRequired | backend/wizard_models.py:133-139 | fails iff the input is all whitespace. Otherwise returns the stripped, non-blank string |
| WizardModels.ValidateFullName | backend/wizard_models.py:133-139 | the stripped name, or "Full name is required" for a blank one |
| WizardModels.ValidateTextFields | backend/wizard_models.py:177-183 | the stripped text, or "This field is required" for a blank one |
| WizardModels.StripRequiredIdempotent | backend/wizard_models.py:133-183 | a validated value passes again unchanged |
| WizardModels.ValidatePassword | backend/wizard_models.py:141-146 | only the empty password is refused, and nothing is stripped |
| WizardModels.ValidateColor | backend/wizard_models.py:203-211 | passes iff seven characters starting with '#'. The empty string and other failures carry their own messages |
| WizardModels.HexColorPassesValidateColor | backend/wizard_models.py:203-211 | every hex colour passes |
| WizardModels.ValidateColorAdmitsNonHex | backend/wizard_models.py:203-211 | "#zzzzzz" passes although it is not hex |
| OnboardingEvents.KindOf | backend/wizard_events.py:63-157 | the class an `event_type` names has that literal |
| OnboardingEvents.KindOfEventType | backend/wizard_events.py:63-142 | each literal names its own class back |
| OnboardingEvents.EventTypesDistinct | backend/wizard_events.py:63-142 | no two classes share an `event_type` |
| OnboardingEvents.ShapeDeterminesKind | backend/wizard_events.py:65-139 | an `event_type`'s length and first character identify its class |
| OnboardingEvents.EventTypesAreKeys | backend/wizard_events.py:63-142 | whichever class has an `event_type`, `KindOf` returns that class for it |
| OnboardingEvents.Validate | backend/wizard_events.py:53-157 | an accepted event meets its class's `event_type`, `step` and `field_name` literals and suggestion constraint. Every event meeting some class's literals and constraint is accepted as that class |
| OnboardingEvents.EventTypesCarrySuffix | backend/wizard_events.py:65-139 | every literal ends in `_suggestion`, what the frontend recogniser tests |
| OnboardingEvents.ValidateAs | backend/wizard_events.py:53-125 | one class's validation: accepted iff each given `event_type`, `step` and `field_name` equals the class literal (an omitted one takes it) and the suggestion meets the class constraint; the event is then of that class |
| OnboardingEvents.ValidateAsAgreesWithValidate | backend/wizard_events.py:53-157 | with all three fields given, a class accepting means the union gives the same event, and the union accepting as a class means that class gives it too |
| OnboardingEvents.ValidateAsDefaults | backend/wizard_events.py:53-125 | omitted fields act as the class's literals, the union with those literals agrees with the class, and another class's `event_type` is refused |
| OnboardingEvents.ToMessage | backend/wizard_events.py:53-59 | the serialised event carries the class's `event_type` and `field_name`, its suggestion (a string, or the boolean as a JSON boolean) and its reasoning |
| OnboardingEvents.ValidEventIsStored | backend/wizard_events.py:63-142 | every event is upserted under its own field name with its suggestion value and reasoning |
| PermitEvents.EveryKindListed | backend/aiui_mcp/wizard_events.py:288-313 | every class is a member of the union |
| PermitEvents.UnionListsEveryClassOnce | backend/aiui_mcp/wizard_events.py:288-313 | the union lists exactly the 24 classes, each once |
| PermitEvents.ShapeDeterminesKind | backend/aiui_mcp/wizard_events.py:67-281 | an `event_type`'s length and first character identify its class |
| PermitEvents.EventTypesDistinct | backend/aiui_mcp/wizard_events.py:67-281 | no two classes share an `event_type` |
| PermitEvents.ValidateAgainst | backend/aiui_mcp/wizard_events.py:288-313 | trying union members in order: a result is a member that accepts the event. No result iff none accepts |
| PermitEvents.Validate | backend/aiui_mcp/wizard_events.py:53-313 | no `reasoning` means no event. Otherwise an accepted event meets its class's literals and constraint, and every event meeting some class's literals and constraint is accepted as that class |
| PermitEvents.EventTypesCarrySuffix | backend/aiui_mcp/wizard_events.py:67-281 | every literal ends in `_suggestion` |
| PermitEvents.ValidateAs | backend/aiui_mcp/wizard_events.py:53-281 | one class's validation: accepted iff reasoning is given, each given `event_type`, `step` and `field_name` equals the class literal (an omitted one takes it) and the suggestion meets the class constraint; the event is then of that class |
| PermitEvents.ValidateAsAgreesWithValidate | backend/aiui_mcp/wizard_events.py:53-313 | with all three fields given, a class accepting means the union gives the same event, and the union accepting as a class means that class gives it too |
| PermitEvents.ValidateOwnLiterals | backend/aiui_mcp/wizard_events.py:53-313 | the union given a class's own literals accepts exactly when the suggestion meets that class's constraint and reasoning is present |
| PermitEvents.ValidateAsDefaults | backend/aiui_mcp/wizard_events.py:53-281 | omitted fields act as the class's literals, the union with those literals agrees with the class, and another class's `event_type` is refused |
| PermitEvents.ToMessage | backend/aiui_mcp/wizard_events.py:53-60 | the serialised event carries its `event_type`, `field_name`, suggestion and required reasoning |
| PermitEvents.ValidEventIsStored | backend/aiui_mcp/wizard_events.py:53-313 | every valid event is upserted under its own field name with its reasoning |
| PermitEvents.EnumsAgreeWithSchemas | backend/aiui_mcp/wizard_events.py:22-49 | the industry, unit-type and method suggestions accept exactly the values the zod schemas accept |
| PermitEvents.FieldNamesMatchEmissionStep | backend/aiui_mcp/wizard_events.py:108-117 | the events for `primaryOperations` and `estimatedAnnualEmissions` are keyed by the names the step reads |
| PermitEvents.FacilityNameBoundLooserThanSchema | backend/aiui_mcp/wizard_events.py:70 | three spaces is a valid facility-name suggestion that the trimming schema refuses |
| PermitEvents.FlagEventsAcceptAnyText | backend/aiui_mcp/wizard_events.py:192-284 | checkbox suggestions are unconstrained strings |
| PermitEvents.FalseFlagEventSuggestsTicked | backend/aiui_mcp/wizard_events.py:192-284 | a checkbox event carrying "false", once received and coerced with `Boolean()`, is suggested as a ticked box |

## Left out

- Sockets, connection handling, the MCP server process, log writes and `JSON.parse`. A message arrives as an already-parsed `AISuggestions.Message`, or `Malformed`.
- `backend/aiui_mcp/mcp_server.py` imports onboarding event classes that the permit event module does not define. Process wiring is not part of this model, so neither is that import.
- `Date.now()` unit ids: `HandleAddUnit` takes the id as a parameter.
- Steps are modelled as integers. A fractional `step` (a JavaScript number) is not modelled.
- A patch key given explicitly as `undefined` is modelled as absent. The source would write `undefined` into the field.
- StepWiring.TextSuggestion: a JSON boolean stored under a text field is handed to the adapter as its text "true" or "false". The source passes the boolean itself, and how React renders it is not modelled. Only the subscribe checkbox receives a boolean from a conforming agent.
- An entry stored without reasoning is handed to the adapters with an empty reason. In the source the reason is `undefined` and is only shown in a tooltip.
- React render scheduling: each effect and handler is one atomic step, and the batching of the two effects on first render is not reproduced. The parent wizard that renders the steps is not part of this model. Its callbacks are recorded as returned `ParentCall`s.
- JSX, styling, icons, dialogs, `src/components/ui/textarea.tsx`, and the progress arithmetic of the onboarding layout.
- The onboarding `WelcomeStep`, `CompanyStep`, `PersonalizationStep`, `Summary` and `WizardLayout` components use a store export, actions and schemas that do not exist. They are not part of this model.
- The schemas imported by the onboarding `ComplianceStep` and `AdditionalRequirementsStep` are not exported. Their submit handlers are modelled on the form values as they stand, without validation.
- The permit `Summary` component only composes store actions the store model already covers.
- The zod schemas' error messages are not modelled. Failures report the set of failing fields.
- pydantic itself: type coercion, and the order in which a declared `min_length` and an explicit validator run. Only the visible constraints are encoded.
- `Field(regex=...)` on the onboarding colour field is not modelled. Only the explicit `validate_color` check is.
- WizardModels.OnboardingWizard.constructor requires the step in 1..4, the range pydantic enforces at construction. Later unvalidated assignment to `current_step` is not modelled.
- Other fields of the pydantic form models (e-mail format and the like) and their enums beyond the ones the events use.
- Event serialisation: the pydantic model is turned into a `Message` directly. The JSON encoding is not modelled.
