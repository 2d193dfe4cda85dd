/** Option and Result values used where the enrollment code either produces a
    value or raises an exception. */
module Outcomes {

  /** A value that may be absent. */
  datatype Option<+T> = None | Some(value: T)

  /** Either a value, or the failure that ended the computation. */
  datatype Result<+T, +E> = Ok(value: T) | Err(failure: E)
}
