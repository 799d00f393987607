/** Option and Result, the two failure-carrying datatypes the rest of the model uses. */
module Wrappers {

  /** A value that may be missing: JavaScript's `undefined`/`null` or a failed lookup. */
  datatype Option<+T> = None | Some(value: T)

  /** The outcome of an operation that either yields a value or fails with an error
      (a thrown `Error`, an early `return` after an alert, ...). */
  datatype Result<+T, +E> = Ok(value: T) | Err(error: E)
}
