/** JSON values as the data provider sees them once the HTTP client has
    parsed a response, together with the JavaScript notions the provider
    relies on: `undefined`, property reads, truthiness and lower-casing of
    header names. */
module JsonValues {

  datatype Option<T> = None | Some(value: T) {
    /** `x ?? d` */
    function GetOr(d: T): T {
      match this
      case Some(v) => v
      case None => d
    }
  }

  /** Why an operation rejects. */
  datatype Failure =
    | TypeError          // a property of null/undefined read, or one of a primitive written
    | Unsupported        // a case the value model cannot represent (see README)
    | MissingCountHeader(message: string)

  datatype Result<T> = Ok(value: T) | Err(error: Failure)

  /** A JavaScript value reachable from parsed JSON. `JUndefined` is what a
      read of a missing property yields; it is distinct from `JNull`.
      Numbers are integers. */
  datatype Json =
    | JUndefined
    | JNull
    | JBool(b: bool)
    | JNum(n: int)
    | JStr(s: string)
    | JArr(items: seq<Json>)
    | JObj(fields: map<string, Json>)

  /** A plain object: its own enumerable properties. */
  type Record = map<string, Json>

  /** `m[k]` on a plain object. */
  function Get(m: Record, k: string): Json {
    if k in m then m[k] else JUndefined
  }

  /** `j[k]` on any value: throws on null and undefined; on other
      non-objects there is no such own property. */
  function Prop(j: Json, k: string): Result<Json> {
    match j
    case JNull => Err(TypeError)
    case JUndefined => Err(TypeError)
    case JObj(m) => Ok(Get(m, k))
    case _ => Ok(JUndefined)
  }

  /** JavaScript truthiness (`if (x)`). */
  predicate Truthy(j: Json) {
    match j
    case JUndefined => false
    case JNull => false
    case JBool(b) => b
    case JNum(n) => n != 0
    case JStr(s) => s != ""
    case JArr(_) => true
    case JObj(_) => true
  }

  /** `String.prototype.toLowerCase` on ASCII letters. */
  function LowerChar(c: char): char {
    if 'A' <= c <= 'Z' then (c as int + 32) as char else c
  }

  function Lower(s: string): string {
    seq(|s|, i requires 0 <= i < |s| => LowerChar(s[i]))
  }
}
