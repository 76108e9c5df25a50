/** Option and Result, the two failure-carrying shapes used throughout the model. */
module Wrappers {

  datatype Option<+T> = None | Some(value: T)

  /** A Go `(value, error)` pair where exactly one side is meaningful. */
  datatype Result<+T> = Success(value: T) | Failure(error: string)
}
