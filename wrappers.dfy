/** Optional values and results with an error, as the Python code's
    `None` returns and raised exceptions are modelled. */
module Wrappers {

  datatype Option<+T> = None | Some(value: T)

  datatype Result<+T, +E> = Success(value: T) | Failure(error: E)
}
