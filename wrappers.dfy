/** Optional values and failing computations, as the TypeScript code uses
    `null`/`undefined` and thrown `Error`s. */
module Wrappers {

  /** A value that may be absent (`null` or `undefined` in the source). */
  datatype Option<+T> = None | Some(value: T) {

    /** The value, or `default` when absent (the `??` operator). */
    function GetOr(default: T): T {
      match this
      case Some(v) => v
      case None => default
    }
  }

  /** A computation that either returns a value or throws an `Error`
      carrying a message. */
  datatype Result<+T> = Ok(value: T) | Err(message: string)
}
