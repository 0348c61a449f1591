/** The optional value and the outcome of a call that may throw, shared by every module. */
module Wrappers {
  datatype Option<+T> = None | Some(value: T)

  datatype Result<+T, +E> = Ok(value: T) | Err(error: E)

  /** An operation on a store, a queue or a remote service succeeds, or throws before or after taking effect. */
  datatype Fault = NoFault | Before | After
}
