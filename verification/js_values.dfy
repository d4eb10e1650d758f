/** The JavaScript values that flow between the adapters, the cache and the
    routes of the dashboard API. */
module JsValues {

  datatype Option<+T> = None | Some(value: T)

  /** A JavaScript value as the adapters see it: the scrapers return strings
      (counts as text) or `null` (their soft failure); the Twitter adapter
      returns whatever `followers_count` holds in a parsed JSON body, or
      `undefined` when that property is missing. Numbers are integers. */
  datatype Value =
    | Null
    | Undefined
    | Bool(b: bool)
    | Num(n: int)
    | Str(s: string)
    | Array(items: seq<Value>)
    | Object(fields: map<string, Value>)

  /** What awaiting a zero-argument producer gives: the value it resolves to,
      or the message of the error it throws. */
  datatype Outcome = Resolved(value: Value) | Thrown(message: string)
}
