/**
 * The checkbox adapter (`SuggestionCheckbox`): the select adapter's machine
 * over a boolean, whose arrival test is `suggestion !== undefined` and which
 * also turns pointer events off while a suggestion is shown.
 */
module SuggestionCheckbox {
  import opened Wrappers
  import opened AdapterCallbacks

  class Checkbox {
    // props
    var checked: Option<bool>
    var suggestion: Option<FieldSuggestion<bool>>
    // state
    var showSuggestion: bool
    var displayChecked: Option<bool>

    /** `useState(false)` and `useState(checked)`. */
    constructor(checked: Option<bool>, suggestion: Option<FieldSuggestion<bool>>)
      ensures this.checked == checked && this.suggestion == suggestion
      ensures !showSuggestion && displayChecked == checked
    {
      this.checked := checked;
      this.suggestion := suggestion;
      showSuggestion := false;
      displayChecked := checked;
    }

    /** A re-render of the parent with new props; state is kept. */
    method SetProps(checked: Option<bool>, suggestion: Option<FieldSuggestion<bool>>)
      modifies this`checked, this`suggestion
      ensures this.checked == checked && this.suggestion == suggestion
    {
      this.checked := checked;
      this.suggestion := suggestion;
    }

    /** The effect on `[suggestion]`; the test is `suggestion !== undefined`, so a `false` suggestion shows too. */
    method SuggestionEffect()
      modifies this`showSuggestion, this`displayChecked
      ensures old(suggestion).Some? ==> showSuggestion && displayChecked == Some(suggestion.value.value)
      ensures old(suggestion).None? ==> showSuggestion == old(showSuggestion) && displayChecked == old(displayChecked)
    {
      if suggestion.Some? {
        showSuggestion := true;
        displayChecked := Some(suggestion.value.value);
      }
    }

    /** The effect on `[checked, showSuggestion]`: when nothing is shown, display the bound state. */
    method ValueEffect()
      modifies this`displayChecked
      ensures !showSuggestion ==> displayChecked == checked
      ensures showSuggestion ==> displayChecked == old(displayChecked)
    {
      if !showSuggestion {
        displayChecked := checked;
      }
    }

    /** `onCheckedChange={!showSuggestion ? onCheckedChange : undefined}`: what a user's click calls. */
    function UserToggle(v: bool): (calls: seq<Callback<bool>>)
      reads this
      ensures showSuggestion ==> calls == []
      ensures !showSuggestion ==> calls == [OnChange(v)]
    {
      if !showSuggestion then [OnChange(v)] else []
    }

    /** The `pointer-events-none` class is applied. */
    function PointerEventsDisabled(): (disabled: bool)
      reads this
      ensures disabled <==> showSuggestion
    {
      showSuggestion
    }

    /** The Accept and Reject buttons are rendered. */
    function ControlsShown(): (shown: bool)
      reads this
      ensures shown <==> showSuggestion && suggestion.Some?
    {
      showSuggestion && suggestion.Some?
    }

    method HandleAccept() returns (calls: seq<Callback<bool>>)
      modifies this`showSuggestion
      ensures old(suggestion).Some? ==>
        calls == [OnAccept(suggestion.value.value), OnChange(suggestion.value.value)] && !showSuggestion
      ensures old(suggestion).None? ==> calls == [] && showSuggestion == old(showSuggestion)
    {
      calls := [];
      if suggestion.Some? {
        calls := calls + [OnAccept(suggestion.value.value)];
        calls := calls + [OnChange(suggestion.value.value)];
        showSuggestion := false;
      }
    }

    method HandleReject() returns (calls: seq<Callback<bool>>)
      modifies this`showSuggestion, this`displayChecked
      ensures calls == [OnReject]
      ensures !showSuggestion && displayChecked == checked
    {
      calls := [OnReject];
      showSuggestion := false;
      displayChecked := checked;
    }
  }

  /** A suggestion of `false` still takes over: the box shows unchecked and clicks are dropped. */
  method FalseSuggestionShows(bound: bool)
    returns (showing: bool, shown: Option<bool>, clicked: seq<Callback<bool>>, accepted: seq<Callback<bool>>)
    ensures showing && shown == Some(false)
    ensures clicked == []
    ensures accepted == [OnAccept(false), OnChange(false)]
  {
    var c := new Checkbox(Some(bound), None);
    c.SetProps(Some(bound), Some(FieldSuggestion(false, "why")));
    c.SuggestionEffect();
    showing := c.PointerEventsDisabled();
    shown := c.displayChecked;
    clicked := c.UserToggle(true);
    accepted := c.HandleAccept();
  }

  /** Reject restores the bound state. */
  method SuggestThenReject(bound: Option<bool>, v: bool) returns (shown: Option<bool>, controls: bool)
    ensures shown == bound && !controls
  {
    var c := new Checkbox(bound, None);
    c.SetProps(bound, Some(FieldSuggestion(v, "why")));
    c.SuggestionEffect();
    var calls := c.HandleReject();
    shown := c.displayChecked;
    controls := c.ControlsShown();
  }
}
