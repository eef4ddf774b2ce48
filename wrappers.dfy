/** Option and Result datatypes shared by every stage. */
module Wrappers {

  datatype Option<+T> = None | Some(value: T)

  /** The outcome of an operation that may raise, in place of a thrown Java exception. */
  datatype Result<+T, +E> = Ok(value: T) | Err(error: E)
}
