/** The two wrapper types the converters need: an optional value, standing
    for a Java reference that may be null, and the outcome of an operation
    that may throw. */
module Wrappers {

  /** A Java reference that may be null: `None` is null. */
  datatype Option<+T> = None | Some(value: T)

  /** A call that either returns `value` or throws `error`. */
  datatype Result<+R, +E> = Success(value: R) | Failure(error: E)
}
