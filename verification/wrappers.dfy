/** Optional values and results used throughout the model: an optional value
    (a Go nil pointer, an absent header, a failed decode) and a result that
    carries either a value or an error. */
module Wrappers {

  datatype Option<+T> = None | Some(value: T)

  datatype Result<+T, +E> = Success(value: T) | Failure(error: E)
}
