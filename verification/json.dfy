/** JSON values as Python sees them after decoding: the cells of the review
    frame and the classifier's reply are both made of these. */
module Json {

  datatype Option<+T> = None | Some(value: T)

  /** A decoded JSON value. `JNull` stands for Python's `None`, and for the
      NaN that pandas puts where a record has no value for a column. */
  datatype Json =
    | JNull
    | JBool(b: bool)
    | JNum(x: real)
    | JStr(s: string)
    | JArray(elems: seq<Json>)
    | JObject(fields: map<string, Json>)

  /** Python truthiness of a decoded value (`if value:`). */
  predicate Truthy(v: Json)
  {
    match v
    case JNull => false
    case JBool(b) => b
    case JNum(x) => x != 0.0
    case JStr(s) => |s| > 0
    case JArray(xs) => |xs| > 0
    case JObject(fs) => |fs| > 0
  }

  /** `d.get(key)` on a dict: the value, or `None` when the key is absent. */
  function Get(fields: map<string, Json>, key: string): Json
  {
    if key in fields then fields[key] else JNull
  }

  /** The number Python compares when the value is an int, a float or a bool
      (True == 1, False == 0); no number for anything else. */
  function Numeric(v: Json): Option<real>
  {
    match v
    case JNum(x) => Some(x)
    case JBool(b) => Some(if b then 1.0 else 0.0)
    case _ => None
  }
}
