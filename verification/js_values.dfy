/**
 JavaScript values as the controller handles them: request bodies, job payloads,
 sync-source details and environment variables.
 */
module JsValues {
  import opened Wrappers

  /** A JSON-like JavaScript value. Numbers are modelled as integers. */
  datatype Value =
    | Undefined
    | Null
    | Bool(b: bool)
    | Num(n: int)
    | Str(s: string)
    | Arr(items: seq<Value>)
    | Obj(fields: map<string, Value>)

  /** A plain object's own enumerable properties, keyed by property name. */
  type Object = map<string, Value>

  /** One entry of `process.env`: either unset, or a string (possibly empty). */
  type EnvVar = Option<string>

  /** JavaScript truthiness of an environment entry: set and not the empty string. */
  predicate EnvTruthy(v: EnvVar)
  {
    v.Some? && v.value != ""
  }

  /** `v || fallback` on an environment entry. */
  function EnvOr(v: EnvVar, fallback: string): string
  {
    if EnvTruthy(v) then v.value else fallback
  }
}
