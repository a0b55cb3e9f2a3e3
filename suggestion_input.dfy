/**
 * The text-input adapter (`SuggestionInput`): it keeps only the
 * `showSuggestion` flag and wraps the input it is given, overriding that
 * child's `value` and `disabled` props while a suggestion is shown.
 */
module SuggestionInput {
  import opened Wrappers
  import opened AdapterCallbacks

  /** The child element's props that the adapter reads or overrides. */
  datatype ChildProps = ChildProps(value: Option<string>, disabled: Option<bool>, readOnly: Option<bool>)

  class Input {
    // props
    var child: ChildProps
    var suggestion: Option<FieldSuggestion<string>>
    // state
    var showSuggestion: bool

    constructor(child: ChildProps, suggestion: Option<FieldSuggestion<string>>)
      ensures this.child == child && this.suggestion == suggestion && !showSuggestion
    {
      this.child := child;
      this.suggestion := suggestion;
      showSuggestion := false;
    }

    method SetProps(child: ChildProps, suggestion: Option<FieldSuggestion<string>>)
      modifies this`child, this`suggestion
      ensures this.child == child && this.suggestion == suggestion
    {
      this.child := child;
      this.suggestion := suggestion;
    }

    /** The effect on `[suggestion]`: only the flag is set; there is no displayed-value state. */
    method SuggestionEffect()
      modifies this`showSuggestion
      ensures showSuggestion == (old(showSuggestion) || suggestion.Some?)
    {
      if suggestion.Some? {
        showSuggestion := true;
      }
    }

    /** The child as rendered: the suggestion's text and forced `disabled` while shown. */
    function EnhancedChild(): (c: ChildProps)
      reads this
      ensures showSuggestion && suggestion.Some? ==> c.value == Some(suggestion.value.value)
      ensures !(showSuggestion && suggestion.Some?) ==> c.value == child.value
      ensures c.disabled == if showSuggestion then Some(true) else child.disabled
      ensures c.readOnly == child.readOnly
    {
      child.(
        value := if showSuggestion && suggestion.Some? then Some(suggestion.value.value) else child.value,
        disabled := if showSuggestion then Some(true) else child.disabled)
    }

    function ControlsShown(): (shown: bool)
      reads this
      ensures shown <==> showSuggestion && suggestion.Some?
    {
      showSuggestion && suggestion.Some?
    }

    /** Accept only reports the value to `onAccept`; the child's own change handler is not called. */
    method HandleAccept() returns (calls: seq<Callback<string>>)
      modifies this`showSuggestion
      ensures old(suggestion).Some? ==> calls == [OnAccept(suggestion.value.value)] && !showSuggestion
      ensures old(suggestion).None? ==> calls == [] && showSuggestion == old(showSuggestion)
    {
      calls := [];
      if suggestion.Some? {
        calls := [OnAccept(suggestion.value.value)];
        showSuggestion := false;
      }
    }

    method HandleReject() returns (calls: seq<Callback<string>>)
      modifies this`showSuggestion
      ensures calls == [OnReject] && !showSuggestion
    {
      calls := [OnReject];
      showSuggestion := false;
    }
  }

  /**
   * While a suggestion shows, the input presents it and is disabled; after
   * Accept the input shows its own value again until the parent writes the
   * accepted text into it, and regains its own `disabled`.
   */
  method SuggestThenAccept(own: ChildProps, a: string)
    returns (during: ChildProps, accepted: seq<Callback<string>>, after: ChildProps)
    ensures during.value == Some(a) && during.disabled == Some(true)
    ensures accepted == [OnAccept(a)]
    ensures after == own
  {
    var input := new Input(own, None);
    input.SetProps(own, Some(FieldSuggestion(a, "why")));
    input.SuggestionEffect();
    during := input.EnhancedChild();
    accepted := input.HandleAccept();
    after := input.EnhancedChild();
  }
}
