/**
 * JavaScript values as the stats server sees them: the JSON that
 * `JSON.parse` and `express.json()` produce, `undefined` for a missing
 * property, and the truthiness that `||` tests.
 */
module JsValues {

  datatype Option<+T> = None | Some(value: T)

  /** A parsed JSON value. Numbers are integers in this model. */
  datatype Json =
    | JNull
    | JBool(b: bool)
    | JNum(n: int)
    | JStr(s: string)
    | JArr(items: seq<Json>)
    | JObj(fields: map<string, Json>)

  /**
   * `v[key]` for a value that is not `null`; `None` stands for `undefined`.
   * Only the record's own keys are ever read, and no number, string,
   * boolean or array parsed from JSON has an own property of those names.
   */
  function Prop(v: Json, key: string): Option<Json>
  {
    if v.JObj? && key in v.fields then Some(v.fields[key]) else None
  }

  /** JavaScript truthiness of a value that may be `undefined`. */
  predicate Truthy(v: Option<Json>)
  {
    match v
    case None => false
    case Some(JNull) => false
    case Some(JBool(b)) => b
    case Some(JNum(n)) => n != 0
    case Some(JStr(s)) => s != ""
    case Some(_) => true
  }
}
