/** Optional values and success-or-failure values, used for JavaScript's
    `undefined` fields and for operations that can fail. */
module Wrappers {

  datatype Option<+T> = None | Some(value: T)

  datatype Result<+R, +E> = Success(value: R) | Failure(error: E)
}
