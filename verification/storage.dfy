/** AsyncStorage as an abstract key-value map from keys to stored strings. */
module Storage {
  import opened JsValues

  /** A stored string, classified by what `JSON.parse` makes of it: either the
      text of a JSON value (which is never the empty string), or some other
      text, the empty string included, on which `JSON.parse` throws. */
  datatype Text = JsonText(value: Json) | Unparsable(raw: string)

  type Store = map<string, Text>

  /** `JSON.stringify` of a JSON value. */
  function Stringify(j: Json): Text
  {
    JsonText(j)
  }

  /** `JSON.parse`: `None` where it throws. */
  function Parse(t: Text): Option<Json>
  {
    match t
    case JsonText(j) => Some(j)
    case Unparsable(_) => None
  }

  /** JavaScript truthiness of a string: only the empty string is falsy. */
  predicate TruthyText(t: Text)
  {
    t.JsonText? || t.raw != ""
  }

  /** The outcome of `await AsyncStorage.getItem(key)`: the promise rejects,
      or resolves to `null`, or to the stored string. */
  datatype Read = ReadFailed | Missing | Found(text: Text)

  /** `AsyncStorage.getItem(key)`; whether the read succeeds is an input. */
  function GetItem(store: Store, key: string, readSucceeds: bool): (r: Read)
    ensures r.ReadFailed? <==> !readSucceeds
    ensures r.Found? <==> readSucceeds && key in store
    ensures r.Found? ==> r.text == store[key]
  {
    if !readSucceeds then ReadFailed
    else if key in store then Found(store[key])
    else Missing
  }

  /** `AsyncStorage.setItem(key, text)`; whether the write succeeds is an
      input, and a failed write leaves the store as it was. */
  function SetItem(store: Store, key: string, text: Text, writeSucceeds: bool): (r: Store)
    ensures writeSucceeds ==> key in r && r[key] == text
    ensures !writeSucceeds ==> r == store
    ensures r - {key} == store - {key}
  {
    if writeSucceeds then store[key := text] else store
  }
}
