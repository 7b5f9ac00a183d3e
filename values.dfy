/** Values shared by every module of the model: optional values, results with
    an error side, the JSON-like values that Python code inspects by
    truthiness, and the HTTP errors that FastAPI handlers raise. */
module Values {

  datatype Option<+T> = None | Some(value: T)

  datatype Result<+T, +E> = Ok(value: T) | Err(error: E)

  /** A JSON value as produced by json.loads or carried in a JWT payload.
      Numbers are integers only (floats are not modelled). */
  datatype Json =
    | JNull
    | JBool(b: bool)
    | JNum(n: int)
    | JStr(s: string)
    | JArr(items: seq<Json>)
    | JObj(fields: map<string, Json>)

  /** Python truthiness of a JSON value: None, False, 0, "", [] and {} are falsy. */
  predicate Truthy(v: Json)
  {
    match v
    case JNull => false
    case JBool(b) => b
    case JNum(n) => n != 0
    case JStr(s) => s != ""
    case JArr(items) => items != []
    case JObj(fields) => fields != map[]
  }

  /** Python's dict.get(key): a missing key reads as None. */
  function Get(m: map<string, Json>, key: string): Json
  {
    if key in m then m[key] else JNull
  }

  /** Python's `a or b`: the first operand when it is truthy, else the second. */
  function Or(a: Json, b: Json): Json
  {
    if Truthy(a) then a else b
  }

  /** A retrieved feedback case: a dict from field names (such as "text") to strings. */
  type Doc = map<string, string>

  /** An HTTPException(status_code, detail). */
  datatype HttpError = HttpError(status: int, detail: string)

  /** What FastAPI answers when a handler raises something other than HTTPException. */
  const UnhandledError := HttpError(500, "Internal Server Error")
}
