/**
 * What the wizard steps hand to the wizard that renders them, and how a step
 * turns an entry of the suggestion map into an adapter's suggestion prop.
 * The rendering wizard itself is not part of this model: its callbacks
 * (`onNext`, `onAcceptSuggestion`, `onRejectSuggestion`) are recorded as the
 * calls a handler makes, in order.
 */
module StepWiring {
  import opened Wrappers
  import opened AdapterCallbacks
  import AISuggestions

  /** The value handed to `onAcceptSuggestion`: the adapter's text or boolean. */
  datatype SuggestionValue = Text(text: string) | Flag(flag: bool)

  datatype ParentCall =
    | OnNext
    | AcceptSuggestion(fieldName: string, value: SuggestionValue)
    | RejectSuggestion(fieldName: string)

  /** JavaScript's `String(v)` on a JSON string or boolean. */
  function JsString(v: AISuggestions.JsonValue): (s: string)
    ensures v.JsonString? ==> s == v.text
    ensures v.JsonBool? ==> s == (if v.flag then "true" else "false")
  {
    match v
    case JsonString(t) => t
    case JsonBool(b) => if b then "true" else "false"
  }

  /**
   * `suggestions[fieldName]` passed as a text adapter's prop: absent keys give
   * `undefined`; a suggestion stored without reasoning shows an empty reason.
   */
  function TextSuggestion(m: AISuggestions.Suggestions, fieldName: string): (p: Option<FieldSuggestion<string>>)
    ensures p.Some? <==> fieldName in m
    ensures p.Some? && m[fieldName].value.JsonString? ==> p.value.value == m[fieldName].value.text
  {
    if fieldName in m then Some(FieldSuggestion(JsString(m[fieldName].value), m[fieldName].reasoning.GetOr(""))) else None
  }

  /** JavaScript's `Boolean(s)` on a string: only the empty string is falsy. */
  function JsBoolean(s: string): (b: bool)
    ensures b <==> |s| > 0
  {
    s != ""
  }

  /** The text "false" and the text "0" coerce to `true`; the adapter then shows the box checked. */
  lemma JsBooleanOfFalseText()
    ensures JsBoolean("false") && JsBoolean("0") && !JsBoolean("")
  {
  }

  /** `Boolean(v)` on a JSON string or boolean: a boolean is itself, a string is truthy iff non-empty. */
  function JsTruthy(v: AISuggestions.JsonValue): (b: bool)
    ensures v.JsonBool? ==> (b <==> v.flag)
    ensures v.JsonString? ==> (b <==> v.text != "")
  {
    match v
    case JsonString(t) => JsBoolean(t)
    case JsonBool(f) => f
  }

  /** The boolean `false` coerces to `false` while the text "false" coerces to `true`. */
  lemma JsTruthyOfFalse()
    ensures !JsTruthy(AISuggestions.JsonBool(false)) && JsTruthy(AISuggestions.JsonString("false"))
  {
  }

  /**
   * A stored entry passed to a checkbox adapter with its value coerced by `Boolean()`.
   * The stored entry is an object, so it is always truthy: any stored entry, even
   * one with an empty value, becomes a suggestion prop.
   */
  function FlagSuggestion(m: AISuggestions.Suggestions, fieldName: string): (p: Option<FieldSuggestion<bool>>)
    ensures p.Some? <==> fieldName in m
    ensures p.Some? ==> (p.value.value <==> JsTruthy(m[fieldName].value))
    ensures p.Some? && m[fieldName].value.JsonString? ==> (p.value.value <==> m[fieldName].value.text != "")
    ensures p.Some? && m[fieldName].value.JsonBool? ==> (p.value.value <==> m[fieldName].value.flag)
  {
    if fieldName in m then Some(FieldSuggestion(JsTruthy(m[fieldName].value), m[fieldName].reasoning.GetOr(""))) else None
  }
}
