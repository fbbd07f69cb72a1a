/** The JSON documents (`serde_json::Value`) the daemon stores and rewrites. */
module Json {

  /** A JSON value; object keys are unique, so an object is a map. Numbers are kept as integers. */
  datatype Json =
    | Null
    | Bool(b: bool)
    | Number(n: int)
    | Str(s: string)
    | Array(items: seq<Json>)
    | Object(fields: map<string, Json>)

  /** `map.get(key)` followed by a pattern match on an object. */
  predicate HasObject(fields: map<string, Json>, key: string) {
    key in fields && fields[key].Object?
  }

  /** `map.get(key)` followed by a pattern match on a string. */
  predicate HasString(fields: map<string, Json>, key: string) {
    key in fields && fields[key].Str?
  }
}
