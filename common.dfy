/** Option and Result, used for nullable fields and for the error paths of the route handlers. */
module Common {

  /** A value that may be absent: `null` or `undefined` in JavaScript. */
  datatype Option<T> = None | Some(value: T) {
    /** The `??` operator: the value when present, else `default`. */
    function GetOr(default: T): T {
      if Some? then value else default
    }
  }

  /** `Math.max` of two integers. */
  function Max(a: int, b: int): int {
    if a >= b then a else b
  }

  /** The outcome of a handler: a value, or the error that made it answer with a failure. */
  datatype Result<T, E> = Ok(value: T) | Err(error: E)
}
