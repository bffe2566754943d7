/** Optional values and results, used wherever the program returns `null`,
    `undefined`, `NaN` or an alert instead of a value. */
module Wrappers {

  datatype Option<+T> = None | Some(value: T)

  datatype Result<+T, +E> = Success(value: T) | Failure(error: E)
}
