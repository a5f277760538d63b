/** The two result shapes used by every module: a value that may be missing, and
    a computation that the original aborts by raising an exception. */
module Wrappers {

  datatype Option<+T> = None | Some(value: T)

  datatype Result<+T, +E> = Success(value: T) | Failure(error: E)
}
