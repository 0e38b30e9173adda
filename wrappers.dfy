/** Option and Result datatypes shared by the model. */
module Wrappers {

  /** An optional value: a missing JSON field, a missing table cell. */
  datatype Option<+T> = None | Some(value: T)

  /** A value or the error that replaced it (a raised exception). */
  datatype Result<+R, +E> = Success(value: R) | Failure(error: E)
}
