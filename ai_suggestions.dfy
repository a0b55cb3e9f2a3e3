/**
 * The suggestion store behind the AI overlay (the `useAISuggestions` hook): a
 * map from field name to at most one suggestion, written by the socket
 * message handler and read by the form steps.
 *
 * The socket payload arrives already parsed: `Malformed` stands for text that
 * `JSON.parse` rejects, `Parsed` for an object with the four keys the handler
 * reads.
 */
module AISuggestions {
  import opened Wrappers
  import Text

  /**
   * The `suggestion` of a message as `JSON.parse` gives it: a string for
   * every event class but the onboarding subscribe event, which sends a boolean.
   */
  datatype JsonValue = JsonString(text: string) | JsonBool(flag: bool)

  /** `{ value, reasoning }`; `reasoning` is `None` when the message carried none. */
  datatype Suggestion = Suggestion(value: JsonValue, reasoning: Option<string>)

  type Suggestions = map<string, Suggestion>

  /**
   * A socket message after `JSON.parse`. `eventType` is `None` when the key is
   * missing or holds a falsy or non-string value (for a truthy non-string the
   * `endsWith` call throws inside the `try`, which has the same effect).
   * `fieldName` is `None` when the key is missing.
   */
  datatype Message =
    | Malformed
    | Parsed(eventType: Option<string>, fieldName: Option<string>, suggestion: JsonValue, reasoning: Option<string>)

  const SuggestionSuffix: string := "_suggestion"

  /** The handler's test: a parsed message whose `event_type` ends in `_suggestion`. */
  predicate IsSuggestionEvent(msg: Message) {
    msg.Parsed? && msg.eventType.Some? && msg.eventType.value != "" && Text.EndsWith(msg.eventType.value, SuggestionSuffix)
  }

  /** The key the handler writes: a missing `field_name` is the property key "undefined". */
  function FieldKey(msg: Message): (k: string)
    requires msg.Parsed?
    ensures msg.fieldName.Some? ==> k == msg.fieldName.value
    ensures msg.fieldName.None? ==> k == "undefined"
  {
    msg.fieldName.GetOr("undefined")
  }

  /** `{ ...prev, [fieldName]: suggestion }` */
  function Upsert(m: Suggestions, fieldName: string, s: Suggestion): (r: Suggestions)
    ensures fieldName in r && r[fieldName] == s
    ensures r.Keys == m.Keys + {fieldName}
    ensures forall k :: k in m && k != fieldName ==> r[k] == m[k]
  {
    m[fieldName := s]
  }

  /** Copy the map, then `delete next[fieldName]`. */
  function Delete(m: Suggestions, fieldName: string): (r: Suggestions)
    ensures fieldName !in r
    ensures r.Keys == m.Keys - {fieldName}
    ensures forall k :: k in r ==> r[k] == m[k]
    ensures fieldName !in m ==> r == m
  {
    map k | k in m && k != fieldName :: m[k]
  }

  /** What one socket message does to the map. */
  function Handle(m: Suggestions, msg: Message): (r: Suggestions)
    ensures IsSuggestionEvent(msg) ==>
      r == Upsert(m, FieldKey(msg), Suggestion(msg.suggestion, msg.reasoning))
    ensures !IsSuggestionEvent(msg) ==> r == m
  {
    if IsSuggestionEvent(msg) then Upsert(m, FieldKey(msg), Suggestion(msg.suggestion, msg.reasoning)) else m
  }

  /** Two writes to the same field keep only the second. */
  lemma UpsertLastWriteWins(m: Suggestions, f: string, a: Suggestion, b: Suggestion)
    ensures Upsert(Upsert(m, f, a), f, b) == Upsert(m, f, b)
  {
  }

  /** Writes to different fields do not interfere. */
  lemma UpsertCommutes(m: Suggestions, f: string, g: string, a: Suggestion, b: Suggestion)
    requires f != g
    ensures Upsert(Upsert(m, f, a), g, b) == Upsert(Upsert(m, g, b), f, a)
  {
  }

  /** Add then remove leaves the field absent and every other entry as it was. */
  lemma AddThenRemove(m: Suggestions, f: string, s: Suggestion)
    ensures Delete(Upsert(m, f, s), f) == Delete(m, f)
    ensures f !in m ==> Delete(Upsert(m, f, s), f) == m
  {
  }

  /** Removing twice is removing once. */
  lemma DeleteIdempotent(m: Suggestions, f: string)
    ensures Delete(Delete(m, f), f) == Delete(m, f)
  {
  }

  /** Only an event type with the suffix can write; every such write is keyed by the message's field. */
  lemma HandleChangesOnlyTheMessageField(m: Suggestions, msg: Message)
    ensures forall k :: k in m && (!msg.Parsed? || k != FieldKey(msg)) ==> k in Handle(m, msg) && Handle(m, msg)[k] == m[k]
    ensures Handle(m, msg) != m ==> msg.Parsed? && msg.eventType.Some? && Text.EndsWith(msg.eventType.value, SuggestionSuffix)
  {
  }

  /** The empty event type never matches, so the `data.event_type &&` guard adds nothing to `endsWith`. */
  lemma EmptyEventTypeNeverMatches()
    ensures !Text.EndsWith("", SuggestionSuffix)
  {
  }

  /** The hook's state. */
  class SuggestionStore {
    var suggestions: Suggestions

    constructor()
      ensures suggestions == map[]
    {
      suggestions := map[];
    }

    method AddSuggestion(fieldName: string, suggestion: Suggestion)
      modifies this
      ensures suggestions == Upsert(old(suggestions), fieldName, suggestion)
    {
      suggestions := suggestions[fieldName := suggestion];
    }

    method RemoveSuggestion(fieldName: string)
      modifies this
      ensures suggestions == Delete(old(suggestions), fieldName)
    {
      var next := suggestions;
      next := map k | k in next && k != fieldName :: next[k];
      suggestions := next;
    }

    /** The current entry for the field, or `None` (`undefined`). */
    function GetSuggestion(fieldName: string): (r: Option<Suggestion>)
      reads this
      ensures r.Some? <==> fieldName in suggestions
      ensures r.Some? ==> r.value == suggestions[fieldName]
    {
      if fieldName in suggestions then Some(suggestions[fieldName]) else None
    }

    method HandleWebSocketMessage(msg: Message)
      modifies this
      ensures suggestions == Handle(old(suggestions), msg)
    {
      if msg.Parsed? && msg.eventType.Some? && msg.eventType.value != "" && Text.EndsWith(msg.eventType.value, SuggestionSuffix) {
        var fieldName := msg.fieldName.GetOr("undefined");
        var suggestion := Suggestion(msg.suggestion, msg.reasoning);
        AddSuggestion(fieldName, suggestion);
      }
    }
  }

  /** Two suggestions for one field, then a removal: the field ends up empty. */
  method AddAddRemoveScenario(f: string, a: Suggestion, b: Suggestion) returns (afterTwo: Option<Suggestion>, afterRemove: Option<Suggestion>)
    ensures afterTwo == Some(b)
    ensures afterRemove == None
  {
    var store := new SuggestionStore();
    store.AddSuggestion(f, a);
    store.AddSuggestion(f, b);
    afterTwo := store.GetSuggestion(f);
    store.RemoveSuggestion(f);
    afterRemove := store.GetSuggestion(f);
  }
}
