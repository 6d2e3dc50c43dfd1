/** Optional values, results and outcomes: the model's stand-ins for `null`,
    `undefined` and rejected promises. */
module Wrappers {

  /** A value that may be absent (`T | null` or an optional field). */
  datatype Option<+T> = None | Some(value: T)

  /** The answer of a request that either yields a value or fails. */
  datatype Result<+R, +E> = Success(value: R) | Failure(error: E)

  /** The answer of a request that yields nothing on success. */
  datatype Outcome<+E> = Pass | Fail(error: E)
}
