/** The document `response.json()` hands back, as a value. */
module JsonValues {
  import opened Wrappers

  /** A parsed JSON document. Member order and duplicate keys are abstracted
      away: JavaScript keeps the last duplicate, and a map keeps one value per
      key. Numbers play no part in the schema and are kept as reals. */
  datatype Json =
    | JNull
    | JBool(b: bool)
    | JNumber(n: real)
    | JString(s: string)
    | JArray(items: seq<Json>)
    | JObject(members: map<string, Json>)

  /** Property access `j[key]`: `undefined` (None) unless `j` is an object
      holding `key`. */
  function Member(j: Json, key: string): Option<Json>
  {
    if j.JObject? && key in j.members then Some(j.members[key]) else None
  }
}
