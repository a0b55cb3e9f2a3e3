/**
 * The radio-group adapter (`SuggestionRadioGroup`): the select adapter's
 * machine, whose displayed value starts as `value || defaultValue`.
 */
module SuggestionRadioGroup {
  import opened Wrappers
  import opened AdapterCallbacks

  /** JavaScript's `a || b` on an optional string: `a` unless it is missing or empty. */
  function JsOr(a: Option<string>, b: Option<string>): (r: Option<string>)
    ensures a.Some? && a.value != "" ==> r == a
    ensures a == None || a == Some("") ==> r == b
  {
    if a.Some? && a.value != "" then a else b
  }

  class RadioGroup {
    // props
    var value: Option<string>
    var defaultValue: Option<string>
    var suggestion: Option<FieldSuggestion<string>>
    // state
    var showSuggestion: bool
    var displayValue: Option<string>

    /** `useState(false)` and `useState(value || defaultValue)`. */
    constructor(value: Option<string>, defaultValue: Option<string>, suggestion: Option<FieldSuggestion<string>>)
      ensures this.value == value && this.defaultValue == defaultValue && this.suggestion == suggestion
      ensures !showSuggestion && displayValue == JsOr(value, defaultValue)
    {
      this.value := value;
      this.defaultValue := defaultValue;
      this.suggestion := suggestion;
      showSuggestion := false;
      displayValue := JsOr(value, defaultValue);
    }

    /** A re-render of the parent with new props; state is kept. */
    method SetProps(value: Option<string>, suggestion: Option<FieldSuggestion<string>>)
      modifies this`value, this`suggestion
      ensures this.value == value && this.suggestion == suggestion
    {
      this.value := value;
      this.suggestion := suggestion;
    }

    /** The effect on `[suggestion]`: a present suggestion shows itself, replacing any earlier one. */
    method SuggestionEffect()
      modifies this`showSuggestion, this`displayValue
      ensures old(suggestion).Some? ==> showSuggestion && displayValue == Some(suggestion.value.value)
      ensures old(suggestion).None? ==> showSuggestion == old(showSuggestion) && displayValue == old(displayValue)
    {
      if suggestion.Some? {
        showSuggestion := true;
        displayValue := Some(suggestion.value.value);
      }
    }

    /** The effect on `[value, showSuggestion]`: when nothing is shown, display the bound value. */
    method ValueEffect()
      modifies this`displayValue
      ensures !showSuggestion ==> displayValue == value
      ensures showSuggestion ==> displayValue == old(displayValue)
    {
      if !showSuggestion {
        displayValue := value;
      }
    }

    /** `onValueChange={!showSuggestion ? onValueChange : undefined}`: what a user's choice calls. */
    function UserChoose(v: string): (calls: seq<Callback<string>>)
      reads this
      ensures showSuggestion ==> calls == []
      ensures !showSuggestion ==> calls == [OnChange(v)]
    {
      if !showSuggestion then [OnChange(v)] else []
    }

    /** The Accept and Reject buttons are rendered. */
    function ControlsShown(): (shown: bool)
      reads this
      ensures shown <==> showSuggestion && suggestion.Some?
    {
      showSuggestion && suggestion.Some?
    }

    method HandleAccept() returns (calls: seq<Callback<string>>)
      modifies this`showSuggestion
      ensures old(suggestion).Some? ==>
        calls == [OnAccept(suggestion.value.value), OnChange(suggestion.value.value)] && !showSuggestion
      ensures old(suggestion).None? ==> calls == [] && showSuggestion == old(showSuggestion)
    {
      calls := [];
      if suggestion.Some? {
        calls := calls + [OnAccept(suggestion.value.value)];
        calls := calls + [OnChange(suggestion.value.value)];
        showSuggestion := false;
      }
    }

    method HandleReject() returns (calls: seq<Callback<string>>)
      modifies this`showSuggestion, this`displayValue
      ensures calls == [OnReject]
      ensures !showSuggestion && displayValue == value
    {
      calls := [OnReject];
      showSuggestion := false;
      displayValue := value;
    }
  }

  /**
   * The default shows only until the first value effect: with no bound value
   * the group starts on `defaultValue`, the effect then displays the missing
   * value, and a Reject later restores the missing value too, never the default.
   */
  method DefaultOnlyBeforeValueEffect(d: string, a: string)
    returns (first: Option<string>, afterEffect: Option<string>, afterReject: Option<string>)
    ensures d != "" ==> first == Some(d)
    ensures afterEffect == None
    ensures afterReject == None
  {
    var g := new RadioGroup(None, Some(d), None);
    first := g.displayValue;
    g.ValueEffect();
    afterEffect := g.displayValue;
    g.SetProps(None, Some(FieldSuggestion(a, "why")));
    g.SuggestionEffect();
    var calls := g.HandleReject();
    afterReject := g.displayValue;
  }

  /** Accept hands the suggested value to both callbacks; a choice made while it shows is dropped. */
  method SuggestThenAccept(bound: Option<string>, a: string, pick: string)
    returns (dropped: seq<Callback<string>>, accepted: seq<Callback<string>>, controls: bool)
    ensures dropped == [] && accepted == [OnAccept(a), OnChange(a)] && !controls
  {
    var g := new RadioGroup(bound, None, None);
    g.SetProps(bound, Some(FieldSuggestion(a, "why")));
    g.SuggestionEffect();
    dropped := g.UserChoose(pick);
    accepted := g.HandleAccept();
    controls := g.ControlsShown();
  }
}
