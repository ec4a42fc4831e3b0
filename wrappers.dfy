/** Failure-carrying results: a thrown JavaScript Error becomes a Failure value. */
module Wrappers {

  datatype Option<+T> = None | Some(value: T)

  datatype Result<+R, +E> = Success(value: R) | Failure(error: E)
}
