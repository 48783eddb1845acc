/**
 * JSON values as the browser and the serverless function exchange them.
 * Serialising and parsing are taken to be the identity on these values.
 */
module Json {
  import opened Wrappers

  datatype Json =
    | JNull
    | JBool(b: bool)
    | JNum(n: real)
    | JStr(s: string)
    | JArr(items: seq<Json>)
    | JObj(fields: map<string, Json>)

  /** A parsed JSON value that JavaScript treats as false: null, false, 0 or the empty string. */
  predicate Falsy(v: Json) {
    v == JNull || v == JBool(false) || v == JNum(0.0) || v == JStr("")
  }

  /** Property access `v.name` on a parsed value; None is `undefined`. */
  function Prop(v: Json, name: string): Option<Json> {
    match v
    case JObj(fields) => if name in fields then Some(fields[name]) else None
    case _ => None
  }
}
