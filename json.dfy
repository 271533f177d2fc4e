/**
  The tree Jackson reads a JSON document into with `readValue(json, Map.class)`:
  objects become string-keyed maps, arrays lists, and the rest scalar values.
 */
module JsonTree {

  datatype Json =
    | JNull
    | JBool(b: bool)
    | JNum(n: int)
    | JStr(s: string)
    | JArr(items: seq<Json>)
    | JObj(fields: map<string, Json>)

  /** `Map.getOrDefault(key, dflt)`: a key that is present keeps its value, even `null`. */
  function GetOrDefault(m: map<string, Json>, key: string, dflt: Json): Json
  {
    if key in m then m[key] else dflt
  }
}
