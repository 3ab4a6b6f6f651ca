/**
 * Decoded JSON values, as Python's `json` module hands them to the chat client,
 * together with the two pieces of Python semantics the client relies on:
 * truthiness (`if health:`, `if sources and ...`) and `dict.get`.
 */
module JsonValues {

  datatype Json =
    | JNull
    | JBool(b: bool)
    | JInt(i: int)
    | JFloat(f: real)
    | JStr(s: string)
    | JArr(items: seq<Json>)
    | JObj(fields: map<string, Json>)

  /** Python truthiness of a decoded value: `None`, `False`, zero and empty containers are false. */
  predicate Truthy(j: Json) {
    match j
    case JNull => false
    case JBool(b) => b
    case JInt(i) => i != 0
    case JFloat(f) => f != 0.0
    case JStr(s) => s != ""
    case JArr(items) => |items| > 0
    case JObj(fields) => |fields| > 0
  }

  /** `d.get(key, default)` on a decoded object. */
  function Get(fields: map<string, Json>, key: string, default: Json): Json {
    if key in fields then fields[key] else default
  }

  /** Values that Python's `:.2f` format specifier accepts (bool is an int subclass). */
  predicate IsNumber(j: Json) {
    j.JInt? || j.JFloat? || j.JBool?
  }
}
