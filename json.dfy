/**
 * The JSON value tree of nlohmann::json, without floating-point numbers.
 * Objects are maps: nlohmann's default object type keeps one value per key.
 */
module JsonValue {

  datatype Json =
    | JNull
    | JBool(b: bool)
    | JInt(i: int)
    | JString(s: string)
    | JArray(elems: seq<Json>)
    | JObject(obj: map<string, Json>)

  /** nlohmann's empty(): true for null, [] and {}, false for every scalar. */
  predicate IsEmpty(j: Json) {
    j == JNull || j == JArray([]) || j == JObject(map[])
  }

  /** nlohmann's contains(key): false for every value that is not an object. */
  predicate Contains(j: Json, key: string) {
    j.JObject? && key in j.obj
  }

  /** json::object(), the default parameter and error payload. */
  function EmptyObject(): Json {
    JObject(map[])
  }
}
