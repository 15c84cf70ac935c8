/** JavaScript values as the adapter sees them: optional values, results of
    calls that may throw, JSON-shaped data and the language's truthiness rule. */
module Js {

  /** `undefined` (None) or a present value. */
  datatype Option<+T> = None | Some(value: T)

  /** The outcome of a computation that either returns or throws. */
  datatype Result<+T, +E> = Ok(value: T) | Err(error: E)

  /** JSON-shaped data: request options, response bodies, tool arguments.
      Numbers are modelled as mathematical integers. */
  datatype Json =
    | JNull
    | JBool(b: bool)
    | JNum(n: int)
    | JStr(s: string)
    | JArr(items: seq<Json>)
    | JObj(fields: map<string, Json>)

  /** JavaScript truthiness: `null`, `false`, `0` and `""` are falsy;
      every array and object is truthy. */
  predicate Truthy(v: Json)
  {
    match v
    case JNull => false
    case JBool(b) => b
    case JNum(n) => n != 0
    case JStr(s) => s != ""
    case JArr(_) => true
    case JObj(_) => true
  }

  /** Truthiness of an optional string (`undefined` and `""` are falsy). */
  predicate TruthyString(s: Option<string>)
  {
    s.Some? && s.value != ""
  }
}
