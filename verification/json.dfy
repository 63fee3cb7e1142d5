/**
 * A JSON value as `json.loads` returns it and `json.dumps` consumes it.
 * Objects are Python dicts: an ordered sequence of (key, value) pairs.
 * The text form (separators, spacing, escapes) is not modelled.
 */
module Json {
  datatype Json =
    | JNull
    | JBool(b: bool)
    | JNum(n: int)
    | JStr(s: string)
    | JArr(items: seq<Json>)
    | JObj(members: seq<(string, Json)>)
}
