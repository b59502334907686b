/**
  The decoded JSON values the engine inspects: what `encoding/json` produces
  when it unmarshals into an empty interface.
 */
module Json {

  import opened Errors

  datatype Json =
    | JObject(fields: map<string, Json>)   // map[string]interface{}
    | JArray(items: seq<Json>)             // []interface{}
    | JString(text: string)                // string
    | JNull                                // nil
    | JScalar                              // float64 or bool: never inspected here

  /** The member under `key` of an object; absent for every non-object. */
  function Member(j: Json, key: string): (r: Option<Json>)
    ensures r.Some? <==> j.JObject? && key in j.fields
    ensures r.Some? ==> r.value == j.fields[key]
  {
    if j.JObject? && key in j.fields then Some(j.fields[key]) else None
  }

  /** Follows a path of object keys from `j`. */
  function Lookup(j: Json, path: seq<string>): (r: Option<Json>)
    decreases |path|
  {
    if path == [] then Some(j)
    else match Member(j, path[0])
      case None => None
      case Some(child) => Lookup(child, path[1..])
  }
}
