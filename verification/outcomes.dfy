/** Failure-compatible wrappers used throughout the model: an optional value (a nullable
    pointer in the engine) and a result that carries either a value or an error. */
module Outcomes {

  /** A value that may be absent; stands for the engine's nullable pointers. */
  datatype Option<+T> = None | Some(value: T)

  /** The outcome of an operation that can hit one of the engine's fatal assertions or
      undefined-behaviour paths: either a value or the error that stopped it. */
  datatype Result<+T, +E> = Ok(value: T) | Err(error: E)
}
