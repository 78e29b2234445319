/** Failure-compatible wrappers and the JSON values the judge exchanges. */
module Common {

  datatype Option<+T> = None | Some(value: T) {
    function GetOr(default: T): T {
      match this
      case Some(v) => v
      case None => default
    }
  }

  /** A call that either returns a value or raises; `error` carries the exception text. */
  datatype Result<+T, +E> = Success(value: T) | Failure(error: E)

  /** A decoded JSON document (the value `json.loads` returns). */
  datatype Json =
    | JNull
    | JBool(b: bool)
    | JNum(n: real)
    | JStr(s: string)
    | JArr(items: seq<Json>)
    | JObj(fields: map<string, Json>)

  /**
   * Python's `float(x)` on a decoded JSON value: a number is itself, a
   * boolean is 1.0 or 0.0, anything else raises (None). Numeric text such as
   * "0.8" is treated as raising too.
   */
  function FloatOf(j: Json): (r: Option<real>)
    ensures j.JNum? ==> r == Some(j.n)
    ensures r.Some? <==> j.JNum? || j.JBool?
  {
    match j
    case JNum(n) => Some(n)
    case JBool(b) => Some(if b then 1.0 else 0.0)
    case _ => None
  }

  /** `d.get(key, default)` on a dict; None when the value is not a dict (the call raises). */
  function GetField(j: Json, key: string, default: Json): (r: Option<Json>)
    ensures j.JObj? <==> r.Some?
    ensures j.JObj? && key in j.fields ==> r == Some(j.fields[key])
    ensures j.JObj? && key !in j.fields ==> r == Some(default)
  {
    match j
    case JObj(f) => Some(if key in f then f[key] else default)
    case _ => None
  }
}
