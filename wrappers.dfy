/** Optional values and success-or-failure values shared by the other modules. */
module Wrappers {

  /** A JavaScript value that may be `null` or `undefined` (`None`). */
  datatype Option<+T> = None | Some(value: T)

  /** A promise that resolves with a value or rejects with an error message. */
  datatype Result<+R, +E> = Success(value: R) | Failure(error: E)
}
