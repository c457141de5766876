/** Values exchanged between the browser and the server: decoded JSON
    documents, Python's truthiness of them, and a small Option/Result pair. */
module Values {

  datatype Option<T> = None | Some(value: T)

  /** An exception raised while a request is being served. */
  datatype Error = KeyError(key: string) | TypeError

  datatype Result<T> = Ok(value: T) | Err(error: Error)

  /** A JSON document as the server decodes it (numbers are whole numbers here). */
  datatype Json =
    | JNull
    | JBool(b: bool)
    | JNum(n: int)
    | JStr(s: string)
    | JArr(items: seq<Json>)
    | JObj(fields: map<string, Json>)

  /** A JSON object, the shape of every stored analysis result. */
  type Object = map<string, Json>

  /** Python's truth value of a decoded JSON value (`if x:`). */
  predicate Truthy(j: Json)
  {
    match j
    case JNull => false
    case JBool(b) => b
    case JNum(n) => n != 0
    case JStr(s) => s != ""
    case JArr(items) => items != []
    case JObj(fields) => fields != map[]
  }
}
