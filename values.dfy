/** Values shared by the backend and the front end: optional values, document
    keys that may be missing, JSON values with Python truthiness, and results. */
module Values {

  datatype Option<+T> = None | Some(value: T)

  datatype Result<+T, +E> = Ok(value: T) | Err(error: E)

  /** A key of a stored document or request body that may be missing
      (Python's `d.get(key, default)` tells the two cases apart). */
  datatype Field<+T> = Absent | Present(value: T)

  /** `d.get(key, default)` */
  function GetOr<T>(f: Field<T>, default: T): T
  {
    match f
    case Absent => default
    case Present(v) => v
  }

  /** A timestamp produced by `datetime.utcnow()` or `new Date().toISOString()`;
      its value is an input of the model. */
  type Time = int

  /** A JSON value as produced by the language model's output parser. */
  datatype Json =
    | JNull
    | JBool(b: bool)
    | JNum(n: real)
    | JStr(s: string)
    | JArr(items: seq<Json>)
    | JObj(fields: map<string, Json>)

  /** Python truthiness of a parsed JSON value: `None`, `False`, `0`, `""`,
      `[]` and `{}` are falsy, everything else is truthy. */
  predicate Truthy(v: Json) {
    match v
    case JNull => false
    case JBool(b) => b
    case JNum(n) => n != 0.0
    case JStr(s) => s != ""
    case JArr(items) => items != []
    case JObj(fields) => fields != map[]
  }

  /** `item.get(key, default)` on a JSON object. */
  function Lookup(item: map<string, Json>, key: string, default: Json): Json
  {
    if key in item then item[key] else default
  }
}
