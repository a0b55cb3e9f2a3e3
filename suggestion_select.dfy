/**
 * The select adapter (`SuggestionSelect`): a select whose displayed value is
 * taken over by an arriving suggestion until the user accepts or rejects it.
 *
 * Props are fields the parent sets between renders (`SetProps`); each React
 * effect and handler is one method, run atomically.
 */
module SuggestionSelect {
  import opened Wrappers
  import opened AdapterCallbacks

  class Select {
    // props
    var value: Option<string>
    var suggestion: Option<FieldSuggestion<string>>
    // state
    var showSuggestion: bool
    var displayValue: Option<string>

    /** `useState(false)` and `useState(value)`. */
    constructor(value: Option<string>, suggestion: Option<FieldSuggestion<string>>)
      ensures this.value == value && this.suggestion == suggestion
      ensures !showSuggestion && displayValue == value
    {
      this.value := value;
      this.suggestion := suggestion;
      showSuggestion := false;
      displayValue := value;
    }

    /** A re-render of the parent with new props; state is kept. */
    method SetProps(value: Option<string>, suggestion: Option<FieldSuggestion<string>>)
      modifies this`value, this`suggestion
      ensures this.value == value && this.suggestion == suggestion
    {
      this.value := value;
      this.suggestion := suggestion;
    }

    /** The effect on `[suggestion]`: a present suggestion shows itself, replacing any earlier one. */
    method SuggestionEffect()
      modifies this`showSuggestion, this`displayValue
      ensures old(suggestion).Some? ==> showSuggestion && displayValue == Some(suggestion.value.value)
      ensures old(suggestion).None? ==> showSuggestion == old(showSuggestion) && displayValue == old(displayValue)
    {
      if suggestion.Some? {
        showSuggestion := true;
        displayValue := Some(suggestion.value.value);
      }
    }

    /** The effect on `[value, showSuggestion]`: when nothing is shown, display the bound value. */
    method ValueEffect()
      modifies this`displayValue
      ensures !showSuggestion ==> displayValue == value
      ensures showSuggestion ==> displayValue == old(displayValue)
    {
      if !showSuggestion {
        displayValue := value;
      }
    }

    /** `onValueChange={!showSuggestion ? onValueChange : undefined}`: what a user's pick calls. */
    function UserSelect(v: string): (calls: seq<Callback<string>>)
      reads this
      ensures showSuggestion ==> calls == []
      ensures !showSuggestion ==> calls == [OnChange(v)]
    {
      if !showSuggestion then [OnChange(v)] else []
    }

    /** The Accept and Reject buttons are rendered. */
    function ControlsShown(): (shown: bool)
      reads this
      ensures shown <==> showSuggestion && suggestion.Some?
    {
      showSuggestion && suggestion.Some?
    }

    method HandleAccept() returns (calls: seq<Callback<string>>)
      modifies this`showSuggestion
      ensures old(suggestion).Some? ==>
        calls == [OnAccept(suggestion.value.value), OnChange(suggestion.value.value)] && !showSuggestion
      ensures old(suggestion).None? ==> calls == [] && showSuggestion == old(showSuggestion)
    {
      calls := [];
      if suggestion.Some? {
        calls := calls + [OnAccept(suggestion.value.value)];
        calls := calls + [OnChange(suggestion.value.value)];
        showSuggestion := false;
      }
    }

    method HandleReject() returns (calls: seq<Callback<string>>)
      modifies this`showSuggestion, this`displayValue
      ensures calls == [OnReject]
      ensures !showSuggestion && displayValue == value
    {
      calls := [OnReject];
      showSuggestion := false;
      displayValue := value;
    }
  }

  /**
   * A second suggestion replaces the first while the first is still showing,
   * a user pick in between is dropped, and Accept commits the second.
   */
  method TwoSuggestionsThenAccept(bound: Option<string>, a: string, b: string, pick: string)
    returns (dropped: seq<Callback<string>>, shown: Option<string>, accepted: seq<Callback<string>>)
    ensures dropped == []
    ensures shown == Some(b)
    ensures accepted == [OnAccept(b), OnChange(b)]
  {
    var s := new Select(bound, None);
    s.SetProps(bound, Some(FieldSuggestion(a, "first")));
    s.SuggestionEffect();
    dropped := s.UserSelect(pick);
    s.SetProps(bound, Some(FieldSuggestion(b, "second")));
    s.SuggestionEffect();
    shown := s.displayValue;
    accepted := s.HandleAccept();
  }

  /** Reject puts the bound value back on display, not the suggestion; afterwards picks are forwarded again. */
  method SuggestThenReject(bound: Option<string>, a: string, pick: string)
    returns (rejected: seq<Callback<string>>, shown: Option<string>, forwarded: seq<Callback<string>>)
    ensures rejected == [OnReject]
    ensures shown == bound
    ensures forwarded == [OnChange(pick)]
  {
    var s := new Select(bound, None);
    s.SetProps(bound, Some(FieldSuggestion(a, "why")));
    s.SuggestionEffect();
    rejected := s.HandleReject();
    shown := s.displayValue;
    forwarded := s.UserSelect(pick);
  }
}
