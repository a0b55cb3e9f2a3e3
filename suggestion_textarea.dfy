/**
 * The text-area adapter (`SuggestionTextarea`): the input adapter's flag and
 * handlers, but the wrapped child is made read-only while a suggestion is
 * shown and keeps its own `disabled` throughout.
 */
module SuggestionTextarea {
  import opened Wrappers
  import opened AdapterCallbacks

  /** The child element's props that the adapter reads or overrides. */
  datatype ChildProps = ChildProps(value: Option<string>, disabled: Option<bool>, readOnly: Option<bool>)

  class Textarea {
    // props
    var child: ChildProps
    var suggestion: Option<FieldSuggestion<string>>
    // state
    var showSuggestion: bool

    constructor(child: ChildProps, suggestion: Option<FieldSuggestion<string>>)
      ensures this.child == child && this.suggestion == suggestion && !showSuggestion
    {
      this.child := child;
      this.suggestion := suggestion;
      showSuggestion := false;
    }

    method SetProps(child: ChildProps, suggestion: Option<FieldSuggestion<string>>)
      modifies this`child, this`suggestion
      ensures this.child == child && this.suggestion == suggestion
    {
      this.child := child;
      this.suggestion := suggestion;
    }

    /** The effect on `[suggestion]`: only the flag is set; there is no displayed-value state. */
    method SuggestionEffect()
      modifies this`showSuggestion
      ensures showSuggestion == (old(showSuggestion) || suggestion.Some?)
    {
      if suggestion.Some? {
        showSuggestion := true;
      }
    }

    /** The child as rendered: the suggestion's text and forced `readOnly` while shown. */
    function EnhancedChild(): (c: ChildProps)
      reads this
      ensures showSuggestion && suggestion.Some? ==> c.value == Some(suggestion.value.value)
      ensures !(showSuggestion && suggestion.Some?) ==> c.value == child.value
      ensures c.readOnly == if showSuggestion then Some(true) else child.readOnly
      ensures c.disabled == child.disabled
    {
      child.(
        value := if showSuggestion && suggestion.Some? then Some(suggestion.value.value) else child.value,
        readOnly := if showSuggestion then Some(true) else child.readOnly)
    }

    function ControlsShown(): (shown: bool)
      reads this
      ensures shown <==> showSuggestion && suggestion.Some?
    {
      showSuggestion && suggestion.Some?
    }

    /** Accept only reports the value to `onAccept`. */
    method HandleAccept() returns (calls: seq<Callback<string>>)
      modifies this`showSuggestion
      ensures old(suggestion).Some? ==> calls == [OnAccept(suggestion.value.value)] && !showSuggestion
      ensures old(suggestion).None? ==> calls == [] && showSuggestion == old(showSuggestion)
    {
      calls := [];
      if suggestion.Some? {
        calls := [OnAccept(suggestion.value.value)];
        showSuggestion := false;
      }
    }

    method HandleReject() returns (calls: seq<Callback<string>>)
      modifies this`showSuggestion
      ensures calls == [OnReject] && !showSuggestion
    {
      calls := [OnReject];
      showSuggestion := false;
    }
  }

  /**
   * While a suggestion shows, the text area presents it read-only but keeps
   * its own `disabled`; Reject hands back the child's own props unchanged.
   */
  method SuggestThenReject(own: ChildProps, a: string)
    returns (during: ChildProps, rejected: seq<Callback<string>>, after: ChildProps)
    ensures during.value == Some(a) && during.readOnly == Some(true) && during.disabled == own.disabled
    ensures rejected == [OnReject]
    ensures after == own
  {
    var area := new Textarea(own, None);
    area.SetProps(own, Some(FieldSuggestion(a, "why")));
    area.SuggestionEffect();
    during := area.EnhancedChild();
    rejected := area.HandleReject();
    after := area.EnhancedChild();
  }
}
