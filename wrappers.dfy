/** Optional values and success/failure outcomes shared by the other modules. */
module Wrappers {

  /** A value that may be missing: TypeScript's `undefined` or `null`. */
  datatype Option<+T> = None | Some(value: T)

  /** The settled state of a promise: resolved with a value or rejected with a reason. */
  datatype Result<+R, +E> = Success(value: R) | Failure(error: E)
}
