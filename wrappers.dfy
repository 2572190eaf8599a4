/** Optional values and success-or-error results, used where the receiver
    either has a value or takes an error path. */
module Wrappers {

  datatype Option<+T> = None | Some(value: T)

  datatype Result<+R, +E> = Success(value: R) | Failure(error: E)
}
