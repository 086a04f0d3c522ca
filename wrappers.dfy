/** Option and Result, the two failure-carrying datatypes the model uses. */
module Wrappers {

  /** A value that may be absent: `None` stands for a JavaScript `undefined`. */
  datatype Option<+T> = None | Some(value: T)

  /** The outcome of validating a document: the stored record, or the errors found. */
  datatype Result<+R, +E> = Success(value: R) | Failure(error: E)
}
