/**
 * The few JavaScript value semantics the frontend relies on: truthiness, `String(v)`,
 * `a || b` on an error detail, and the key omission of `JSON.stringify`.
 * Only the primitive values the frontend stores or sends are modelled.
 */
module Js {
  import opened Wrappers
  import opened Text

  datatype JsValue = Undefined | Null | Bool(b: bool) | Str(s: string)

  /** JavaScript truthiness. */
  predicate Truthy(v: JsValue) {
    match v
    case Undefined => false
    case Null => false
    case Bool(b) => b
    case Str(s) => s != ""
  }

  /** `String(v)`, which is also what `localStorage.setItem` stores. */
  function ToJsString(v: JsValue): (r: string)
    ensures v.Str? ==> r == v.s
    ensures r == "true" <==> v == Bool(true) || v == Str("true")
  {
    match v
    case Undefined => "undefined"
    case Null => "null"
    case Bool(b) => if b then "true" else "false"
    case Str(s) => s
  }

  /** The message of `new Error(detail || fallback)`. */
  function DetailOr(detail: JsValue, fallback: string): (r: string)
    ensures Truthy(detail) ==> r == ToJsString(detail)
    ensures !Truthy(detail) ==> r == fallback
  {
    if Truthy(detail) then ToJsString(detail) else fallback
  }

  /** The members `JSON.stringify` writes out: an `undefined` member is omitted. */
  function Stringified(body: map<string, JsValue>): (r: map<string, JsValue>)
    ensures forall k :: k in r <==> k in body && body[k] != Undefined
    ensures forall k :: k in r ==> r[k] == body[k]
  {
    map k | k in body && body[k] != Undefined :: body[k]
  }

  /** The outcome of one `fetch` whose reply is read as JSON: the decoded body of an
      ok reply, the HTTP status and the `detail` member (`undefined` when absent) of an
      error reply, or the message of an error thrown on the way. */
  datatype Reply<T> = Ok(data: T) | NotOk(status: nat, detail: JsValue) | Thrown(message: string)
}
