/**
 * What an adapter's handlers hand back to the form that renders it: the calls
 * they make on the callbacks received as props, in the order made.
 */
module AdapterCallbacks {

  /** `onAccept(v)`, the change callback (`onValueChange`, `onCheckedChange` or `onChange`) with `v`, `onReject()`. */
  datatype Callback<T> = OnAccept(value: T) | OnChange(value: T) | OnReject

  /** The suggestion prop the adapters receive: a value and the reason given for it. */
  datatype FieldSuggestion<T> = FieldSuggestion(value: T, reasoning: string)
}
