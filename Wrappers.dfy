/** Failure-carrying values shared by the modules of this model. */
module Wrappers {

  /** A reference that may be null. */
  datatype Option<T> = None | Some(value: T)

  /** A value, or the exception the modelled code would have thrown instead. */
  datatype Result<T, E> = Ok(value: T) | Err(error: E)

  /** Completion of a call that returns nothing, or the exception it threw. */
  datatype Outcome<E> = Pass | Fail(error: E)
}
