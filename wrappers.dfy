/** Optional values and success-or-error results, used wherever the source
    returns `undefined`/`None` or throws. */
module Wrappers {

  datatype Option<+T> = None | Some(value: T)

  datatype Result<+R, +E> = Success(value: R) | Failure(error: E)
}
