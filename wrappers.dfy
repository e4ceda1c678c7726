/** Failure-carrying values: the model's stand-in for Python's None and for
    exceptions that abort an operation. */
module Wrappers {

  datatype Option<+T> = None | Some(value: T)

  datatype Result<+R, +E> = Success(value: R) | Failure(error: E)
}
