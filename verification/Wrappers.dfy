/** Values that may be absent, and operations that may be rejected. */
module Wrappers {
  datatype Option<+T> = None | Some(value: T)

  /** The outcome of one transaction: on `Err` the transaction was rolled back. */
  datatype Result<+T, +E> = Ok(value: T) | Err(error: E)
}
