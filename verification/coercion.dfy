/**
 * The JavaScript coercions the request handlers apply to loosely typed
 * request fields. Number parsing itself (`parseInt`) is not modelled: a
 * field that went through it arrives as `Some(n)` when it parsed and as
 * `None` when it gave NaN.
 */
module Coercion {
  import opened Wrappers

  /**
   * A value `express.json` can deliver for a body field that is present.
   * `JsNumber` holds the finite double that `JSON.parse` produced (every
   * finite double is a real); a literal too large for a double arrives as
   * Infinity, which is truthy, and one too small arrives as 0.
   */
  datatype JsValue =
    | JsBool(b: bool)
    | JsNumber(x: real)
    | JsString(s: string)
    | JsNull
    | JsArray(elements: seq<JsValue>)
    | JsObject(members: seq<(string, JsValue)>)

  /** JavaScript truthiness, i.e. `!!v`: every array and object is truthy, even an empty one. */
  predicate Truthy(v: JsValue) {
    match v
    case JsBool(b) => b
    case JsNumber(x) => x != 0.0
    case JsString(s) => s != ""
    case JsNull => false
    case JsArray(_) => true
    case JsObject(_) => true
  }

  /** `parseInt(x) || 0`: a failed parse (NaN) and a parsed zero both give 0. */
  function IntOrZero(parsed: Option<int>): int {
    parsed.GetOr(0)
  }

  /** `s || fallback` for a string field: absent and empty both give the fallback. */
  function TextOr(s: Option<string>, fallback: string): string {
    if s.Some? && s.value != "" then s.value else fallback
  }
}
