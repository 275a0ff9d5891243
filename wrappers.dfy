/** Failure-carrying result types shared by the client, dispatcher and server models. */
module Wrappers {

  datatype Option<+T> = None | Some(value: T)

  /** A computed value, or the error the source reports instead. */
  datatype Result<+T, +E> = Ok(value: T) | Err(error: E)

  /** The outcome of an operation that returns nothing but may fail. */
  datatype Outcome<+E> = Pass | Fail(error: E)
}
