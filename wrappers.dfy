/** Optional and fallible values shared by every module of the model. */
module Wrappers {

  /** A value that may be absent (`null` or `undefined` in the storefront's code). */
  datatype Option<+T> = None | Some(value: T) {

    /** The nullish-coalescing operator `x ?? default`. */
    function GetOr(default: T): T {
      match this
      case Some(v) => v
      case None => default
    }
  }

  /** The result of an operation that either answers or throws. */
  datatype Result<+T, +E> = Ok(value: T) | Err(error: E)

  /** A thrown JavaScript value: an `Error` object (which has a message) or anything else. */
  datatype Thrown = ErrorObject(message: string) | OtherValue

  /** `error instanceof Error ? error.message : fallback`, the pattern every route uses. */
  function MessageOr(t: Thrown, fallback: string): (m: string)
    ensures t.ErrorObject? ==> m == t.message
    ensures t.OtherValue? ==> m == fallback
  {
    match t
    case ErrorObject(msg) => msg
    case OtherValue => fallback
  }

  /** JavaScript truthiness of an optional string: `null`, `undefined` and `""` are falsy. */
  predicate Truthy(s: Option<string>) {
    s.Some? && s.value != ""
  }
}
