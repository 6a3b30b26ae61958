/** Failure-carrying values shared by every module of the model. */
module Wrappers {

  /** A value that may be missing (a Python `None`, an absent key, a failed remote call). */
  datatype Option<+T> = None | Some(value: T)

  /** The outcome of an operation that either returns a value or raises an error. */
  datatype Result<+R, +E> = Success(value: R) | Failure(error: E)
}
