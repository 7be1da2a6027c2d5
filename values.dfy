/** Value types shared by the subtask engine and the plugin registry. */
module Values {

  datatype Option<+T> = None | Some(value: T)

  /** The outcome of an operation that raises an exception instead of returning. */
  datatype Result<+T> = Ok(value: T) | Err(message: string)

  /**
   * A JSON value. Every payload, state bag and record field the engine moves
   * around is JSON-encodable; encoding is treated as lossless, so values are
   * kept unencoded (numbers are integers only).
   */
  datatype Json =
    | JNull
    | JBool(b: bool)
    | JNum(n: int)
    | JStr(s: string)
    | JArr(items: seq<Json>)
    | JObj(fields: map<string, Json>)

  /** The opaque state bag a stage threads through `fetch`: string keys to JSON values. */
  type State = map<string, Json>
}
