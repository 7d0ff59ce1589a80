/** Option and Result, as used throughout the model. */
module Wrappers {

  /** A value that may be missing: pandas' NaN in a numeric column, an absent search result. */
  datatype Option<+T> = None | Some(value: T)

  /** The outcome of a call that can raise: a value, or the text of the exception. */
  datatype Result<+R, +E> = Success(value: R) | Failure(error: E)
}
