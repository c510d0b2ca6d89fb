/** The JSON values that `json.loads` produces and `json.dumps` consumes. */
module JsonValues {

  /** A decoded JSON document: numbers (int or float in Python) are reals and objects are maps. */
  datatype Json =
    | JNull
    | JBool(b: bool)
    | JNum(n: real)
    | JStr(s: string)
    | JArr(items: seq<Json>)
    | JObj(fields: map<string, Json>)
}
