/** Option and Result: a Java `null` and a thrown exception, as values. */
module Wrappers {

  /** `None` stands for a Java `null` reference. */
  datatype Option<+T> = None | Some(value: T)

  /** `Err` stands for an exception that propagates to the caller. */
  datatype Result<+T, +E> = Ok(value: T) | Err(error: E)
}
