/** The JavaScript values and control outcomes that the framework's code
    passes around: loader data and errors are arbitrary values, a missing
    key reads as `undefined`, and failures travel as thrown values. */
module Js {

  datatype Option<+T> = None | Some(value: T) {
    function GetOr(default: T): T {
      match this
      case Some(v) => v
      case None => default
    }
  }

  /** An arbitrary JavaScript value, kept abstract. Numbers are integers here:
      no floating point and no NaN. `Obj` is any object, named by an identity. */
  datatype Value =
    | Undefined
    | Null
    | Bool(b: bool)
    | Num(n: int)
    | Str(s: string)
    | Obj(ref: nat)

  /** JavaScript truthiness, as used by `if (x)` and `!x`. */
  predicate Truthy(v: Value) {
    match v
    case Undefined => false
    case Null => false
    case Bool(b) => b
    case Num(n) => n != 0
    case Str(s) => s != ""
    case Obj(_) => true
  }

  /** Truthiness of an optional string (`undefined` or `""` are falsy). */
  predicate TruthyString(o: Option<string>) {
    o.Some? && o.value != ""
  }

  /** What a `throw` carries. `ErrorObj` is `new Error(message)`;
      `ErrorResponse` is react-router's `ErrorResponseImpl`; `RedirectResponse`
      is the `Response` that react-router's `redirect()` builds, with the
      extra headers it was given; `ThrownValue` is any other thrown value. */
  datatype Thrown =
    | ErrorObj(message: string)
    | ErrorResponse(status: int, statusText: string, internal: bool)
    | RedirectResponse(location: string, status: int, headers: map<string, string>)
    | ThrownValue(value: Value)

  /** A call that either returns a value or throws. */
  datatype Result<+T> = Ok(value: T) | Throw(thrown: Thrown)

  /** A call that returns nothing or throws. */
  datatype Outcome = Done | Failed(thrown: Thrown)
}
