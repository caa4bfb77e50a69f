/** JSON values as `json.loads` hands them to the endpoint, and the
    `dict.get(key, default)` lookup the endpoint applies to them. */
module Json {

  /** A parsed JSON document. Objects are keyed by their member names; a
      duplicated member keeps its last value, as `json.loads` does. */
  datatype Json =
    | JNull
    | JBool(b: bool)
    | JNumber(n: real)
    | JString(s: string)
    | JArray(elems: seq<Json>)
    | JObject(fields: map<string, Json>)

  /** `obj.get(key, default)`: the stored value when the key is present, even
      when that value is `null` or a number; `default` only when it is absent. */
  function Get(obj: map<string, Json>, key: string, default: Json): (r: Json)
    ensures key in obj ==> r == obj[key]
    ensures key !in obj ==> r == default
  {
    if key in obj then obj[key] else default
  }
}
