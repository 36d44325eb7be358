/** Optional values and success-or-error results: Python's `Optional[...]`
    and the exceptions the loaders raise. */
module Wrappers {

  datatype Option<+T> = None | Some(value: T)

  datatype Result<+R, +E> = Success(value: R) | Failure(error: E)
}
