/** Failure-carrying values shared by the modules of this model. */
module Wrappers {

  /** A value that may be absent (a JavaScript property that is undefined). */
  datatype Option<+T> = None | Some(value: T)

  /** A computed value, or the error the source throws instead. */
  datatype Result<+R, +E> = Success(value: R) | Failure(error: E)

  /** A step that either completes or throws. */
  datatype Outcome<+E> = Pass | Fail(error: E)
}
