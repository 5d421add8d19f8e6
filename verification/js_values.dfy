/** The JavaScript values the app passes around: `undefined`-or-a-value, and
    JSON data as produced by `JSON.parse` and `response.json()`. */
module JsValues {

  /** `None` plays JavaScript's `undefined` (or `null` where the source uses
      `null` as "nothing yet"). */
  datatype Option<+T> = None | Some(value: T)

  /** A JSON value. Numbers are mathematical reals: NaN, infinities and
      negative zero are not modelled. */
  datatype Json =
    | JNull
    | JBool(b: bool)
    | JNumber(n: real)
    | JString(s: string)
    | JArray(items: seq<Json>)
    | JObject(fields: map<string, Json>)

  /** JavaScript truthiness, as used by `if (x)`, `x && y`, `x ? a : b` and `!x`. */
  predicate Truthy(j: Json)
  {
    match j
    case JNull => false
    case JBool(b) => b
    case JNumber(n) => n != 0.0
    case JString(s) => s != ""
    case JArray(_) => true
    case JObject(_) => true
  }

  /** Property access `j.name`: undefined unless `j` is an object that has
      the property. */
  function Field(j: Json, name: string): Option<Json>
  {
    if j.JObject? && name in j.fields then Some(j.fields[name]) else None
  }
}
