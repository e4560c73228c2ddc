/** Decoded JSON, as Go's `encoding/json` produces it for `interface{}` targets. */
module Json {
  import opened Wrappers

  /**
   * A decoded JSON value: `map[string]interface{}` for objects, `[]interface{}`
   * for arrays. Numbers are kept as integers; the model never inspects them.
   */
  datatype Json =
    | JNull
    | JBool(b: bool)
    | JNumber(n: int)
    | JString(s: string)
    | JArray(items: seq<Json>)
    | JObject(fields: map<string, Json>)

  /** The string stored under `key` in a JSON object, as the Go type assertion `m[key].(string)` finds it. */
  function StringField(fields: map<string, Json>, key: string): (r: Option<string>)
    ensures r.Some? <==> key in fields && fields[key].JString?
    ensures r.Some? ==> fields[key] == JString(r.value)
  {
    if key in fields && fields[key].JString? then Some(fields[key].s) else None
  }

  /**
   * What a handler gets from a request whose body is a JWT read without
   * checking its signature: the body could not be read, the token did not
   * parse, its claims were not a JSON object, or the claims. With map
   * claims requested, the JWT library never yields `ClaimsNotMap`: a payload
   * that is not an object already fails to parse.
   */
  datatype JwtBody =
    | BodyUnreadable
    | JwtMalformed
    | ClaimsNotMap
    | Claims(claims: map<string, Json>)
}
