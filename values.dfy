/** The dynamically typed values that flow through the backend's dictionaries. */
module Values {

  /** A JSON-like value: what a Python dictionary entry may hold in this backend. */
  datatype Json =
    | JNull
    | JNum(n: real)
    | JStr(s: string)
    | JObj(fields: map<string, Json>)

  /** Python's `d.get(key, default)` on a dictionary. */
  function Get(fields: map<string, Json>, key: string, default: Json): Json {
    if key in fields then fields[key] else default
  }
}
