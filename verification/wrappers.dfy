/** Failure-carrying datatypes used where the Python code gets `None` back or raises. */
module Wrappers {

  /** `Some(v)` for a value, `None` where the source has no value (an exception caught, a `None` returned). */
  datatype Option<+T> = None | Some(value: T)

  /** `Success(v)` for a normal return, `Failure(e)` for an exception that propagates to the caller. */
  datatype Result<+R, +E> = Success(value: R) | Failure(error: E)
}
