/** Optional values (TypeScript's `undefined`) and results of operations that may throw. */
module Wrappers {

  /** A value that may be absent, as a field of a `Partial<...>` options record. */
  datatype Option<+T> = None | Some(value: T) {

    /** The value, or `default` when absent: TypeScript's `value ?? default`. */
    function GetOr(default: T): T {
      match this
      case Some(v) => v
      case None => default
    }
  }

  /** The outcome of an operation that either returns a value or throws an error message. */
  datatype Result<+T, +E> = Ok(value: T) | Err(error: E)
}
