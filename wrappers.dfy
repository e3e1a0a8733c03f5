/** Failure-carrying results used where the Python code raises an exception. */
module Wrappers {

  /** A value that may be missing (a Python IndexError, or "statistics unavailable"). */
  datatype Option<+T> = None | Some(value: T)

  /** Success or failure with an error value (an exception that aborts the operation). */
  datatype Outcome<+E> = Pass | Fail(error: E)
}
