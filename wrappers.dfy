/** Option and Result, used for values the API may leave undefined and for
    validations that either build a request body or report an error message. */
module Wrappers {

  datatype Option<+T> = None | Some(value: T)

  datatype Result<+R, +E> = Success(value: R) | Failure(error: E)
}
