/** Option and Result: missing values (pandas NaN / NaT) and aborted runs. */
module Wrappers {

  /** A value that may be missing; `None` stands for pandas' NaN or NaT. */
  datatype Option<+T> = None | Some(value: T)

  /** The outcome of a run that can stop with an error. */
  datatype Result<+R, +E> = Success(value: R) | Failure(error: E)
}
