/** Optional values and results with an error branch, used where the screens
    test for a missing value or report a validation error. */
module Wrappers {
  datatype Option<+T> = None | Some(value: T)

  datatype Result<+T, +E> = Ok(value: T) | Err(error: E)
}
