/** Option and Result, used for the split's "no match" and for requests that end in HTTP 500. */
module Wrappers {

  datatype Option<+T> = None | Some(value: T)

  datatype Result<+R, +E> = Success(value: R) | Failure(error: E)
}
