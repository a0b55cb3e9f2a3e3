/**
 * The colour-picker adapter (`SuggestionColorPicker`): eight preset swatches
 * and a custom colour input over the select adapter's machine, with every
 * user pick routed through `handleColorSelect`.
 */
module SuggestionColorPicker {
  import opened Wrappers
  import opened AdapterCallbacks
  import Text

  const PresetColors: seq<string> := ["#3b82f6", "#10b981", "#f59e0b", "#ef4444", "#8b5cf6", "#f97316", "#06b6d4", "#84cc16"]

  /** Every preset is a `#RRGGBB` colour, so picking one always satisfies the colour pattern. */
  lemma PresetColorsAreHex()
    ensures |PresetColors| == 8
    ensures forall i :: 0 <= i < |PresetColors| ==> Text.IsHexColor(PresetColors[i])
  {
  }

  class ColorPicker {
    // props
    var value: string
    var suggestion: Option<FieldSuggestion<string>>
    // state
    var showSuggestion: bool
    var displayValue: string

    /** `useState(false)` and `useState(value)`. */
    constructor(value: string, suggestion: Option<FieldSuggestion<string>>)
      ensures this.value == value && this.suggestion == suggestion
      ensures !showSuggestion && displayValue == value
    {
      this.value := value;
      this.suggestion := suggestion;
      showSuggestion := false;
      displayValue := value;
    }

    /** A re-render of the parent with new props; state is kept. */
    method SetProps(value: string, suggestion: Option<FieldSuggestion<string>>)
      modifies this`value, this`suggestion
      ensures this.value == value && this.suggestion == suggestion
    {
      this.value := value;
      this.suggestion := suggestion;
    }

    /** The effect on `[suggestion]`: a present suggestion shows itself, replacing any earlier one. */
    method SuggestionEffect()
      modifies this`showSuggestion, this`displayValue
      ensures old(suggestion).Some? ==> showSuggestion && displayValue == suggestion.value.value
      ensures old(suggestion).None? ==> showSuggestion == old(showSuggestion) && displayValue == old(displayValue)
    {
      if suggestion.Some? {
        showSuggestion := true;
        displayValue := suggestion.value.value;
      }
    }

    /** The effect on `[value, showSuggestion]`: when nothing is shown, display the bound value. */
    method ValueEffect()
      modifies this`displayValue
      ensures !showSuggestion ==> displayValue == value
      ensures showSuggestion ==> displayValue == old(displayValue)
    {
      if !showSuggestion {
        displayValue := value;
      }
    }

    /** `handleColorSelect`: a preset click or a custom pick is forwarded to `onChange` only when nothing is shown. */
    function HandleColorSelect(color: string): (calls: seq<Callback<string>>)
      reads this
      ensures showSuggestion ==> calls == []
      ensures !showSuggestion ==> calls == [OnChange(color)]
    {
      if !showSuggestion then [OnChange(color)] else []
    }

    /** The preset buttons carry `disabled={showSuggestion}`. */
    function PresetsDisabled(): (disabled: bool)
      reads this
      ensures disabled <==> showSuggestion
    {
      showSuggestion
    }

    /** The custom colour input carries `readOnly={showSuggestion}`. */
    function CustomReadOnly(): (readOnly: bool)
      reads this
      ensures readOnly <==> showSuggestion
    {
      showSuggestion
    }

    /** The Accept and Reject buttons are rendered. */
    function ControlsShown(): (shown: bool)
      reads this
      ensures shown <==> showSuggestion && suggestion.Some?
    {
      showSuggestion && suggestion.Some?
    }

    method HandleAccept() returns (calls: seq<Callback<string>>)
      modifies this`showSuggestion
      ensures old(suggestion).Some? ==>
        calls == [OnAccept(suggestion.value.value), OnChange(suggestion.value.value)] && !showSuggestion
      ensures old(suggestion).None? ==> calls == [] && showSuggestion == old(showSuggestion)
    {
      calls := [];
      if suggestion.Some? {
        calls := calls + [OnAccept(suggestion.value.value)];
        calls := calls + [OnChange(suggestion.value.value)];
        showSuggestion := false;
      }
    }

    method HandleReject() returns (calls: seq<Callback<string>>)
      modifies this`showSuggestion, this`displayValue
      ensures calls == [OnReject]
      ensures !showSuggestion && displayValue == value
    {
      calls := [OnReject];
      showSuggestion := false;
      displayValue := value;
    }
  }

  /** While a suggested colour shows, preset clicks are dropped; after Reject they reach `onChange` again. */
  method PresetBlockedWhileSuggested(bound: string, suggested: string, i: nat)
    returns (blocked: seq<Callback<string>>, shown: string, afterReject: seq<Callback<string>>)
    requires i < |PresetColors|
    ensures blocked == []
    ensures shown == bound
    ensures afterReject == [OnChange(PresetColors[i])]
  {
    var p := new ColorPicker(bound, None);
    p.SetProps(bound, Some(FieldSuggestion(suggested, "why")));
    p.SuggestionEffect();
    blocked := p.HandleColorSelect(PresetColors[i]);
    var calls := p.HandleReject();
    shown := p.displayValue;
    afterReject := p.HandleColorSelect(PresetColors[i]);
  }

  /** Accept calls `onAccept` before `onChange`, both with the suggested colour. */
  method SuggestThenAccept(bound: string, suggested: string) returns (accepted: seq<Callback<string>>, locked: bool)
    ensures accepted == [OnAccept(suggested), OnChange(suggested)]
    ensures !locked
  {
    var p := new ColorPicker(bound, None);
    p.SetProps(bound, Some(FieldSuggestion(suggested, "why")));
    p.SuggestionEffect();
    accepted := p.HandleAccept();
    locked := p.PresetsDisabled() || p.CustomReadOnly();
  }
}
