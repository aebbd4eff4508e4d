/** Failure-compatible wrappers used throughout the model.
    - Option<T> stands for a pandas value that may be NaN (None = undefined).
    - Result<R, E> stands for a lookup that either yields rows or raises.
 */
module Wrappers {

  /** A value that may be missing; the model's counterpart of a NaN cell. */
  datatype Option<+T> = None | Some(value: T)

  /** Either a value or the error that was raised instead. */
  datatype Result<+R, +E> = Success(value: R) | Failure(error: E)
}
