/** Optional values, for Python's `None`-or-value results, and results that
    carry either a value or the exception raised instead. */
module Wrappers {
  datatype Option<T> = None | Some(value: T)

  datatype Result<T, E> = Success(value: T) | Failure(error: E)
}
