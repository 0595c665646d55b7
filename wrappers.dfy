/** Failure-compatible results shared by the pattern models: the C++ code signals
    failure with `runtime_error` or a NULL pointer, the model returns a value. */
module Wrappers {

  /** An optional value, standing in for a pointer that may be NULL. */
  datatype Option<+T> = None | Some(value: T)

  /** A value or the message of the `runtime_error` that the C++ code throws. */
  datatype Result<+T> = Ok(value: T) | Err(error: string)

  /** The outcome of an operation that returns nothing but may throw. */
  datatype Outcome = Pass | Fail(error: string)
}
