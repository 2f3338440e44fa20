/** Optional values and error-carrying results, used where the Python code
    returns None, yields NaN or raises. */
module Wrappers {

  datatype Option<+T> = None | Some(value: T)

  datatype Result<+T, +E> = Success(value: T) | Failure(error: E)
}
