/** Option and Result values, standing in for Go's nil pointers and for the
    error paths that the tool ends with os.Exit. */
module Wrappers {

  datatype Option<+T> = None | Some(value: T)

  datatype Result<+T, +E> = Success(value: T) | Failure(error: E)
}
