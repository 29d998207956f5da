/** Decoded JSON values as the agent sees them after Gson has parsed a line. */
module Json {

  datatype Option<T> = None | Some(value: T)

  /** A decoded JSON value. Numbers are kept as integers: the agent only ever
      reads a number as a request id. */
  datatype Value =
    | JNull
    | JBool(b: bool)
    | JNum(n: int)
    | JStr(s: string)
    | JArr(items: seq<Value>)
    | JObj(fields: map<string, Value>)

  /** Kotlin's `map[key]` on a decoded object: null (here None) for a missing key. */
  function Get(m: map<string, Value>, key: string): Option<Value>
  {
    if key in m then Some(m[key]) else None
  }
}
