/** Failure-compatible helper datatypes shared by the other modules. */
module Wrappers {

  /** A value that may be absent; stands for a Java reference that may be null. */
  datatype Option<+T> = None | Some(value: T)

  /** The outcome of an operation that either completes or fails with an error value. */
  datatype Outcome<+E> = Pass | Fail(error: E)
}
