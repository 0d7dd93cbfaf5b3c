/** Failure-carrying result types shared by the other modules. */
module Wrappers {

  /** A value that may be absent; stands for a nil pointer or an optional group. */
  datatype Option<+T> = None | Some(value: T)

  /** The (value, error) pair of a Go function: exactly one side is meaningful. */
  datatype Result<+R, +E> = Success(value: R) | Failure(error: E)

  /** The (bool, error) pair of a Go check: Pass is (true, nil). */
  datatype Outcome<+E> = Pass | Fail(error: E)
}
