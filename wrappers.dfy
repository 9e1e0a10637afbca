/** Failure-carrying results shared by the rDock modules. */
module Wrappers {

  datatype Option<+T> = None | Some(value: T)

  /** The outcome of an operation that throws an RbtError in the C++ code. */
  datatype Result<+T, +E> = Ok(value: T) | Err(error: E)
}
