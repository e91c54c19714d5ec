/** Failure-compatible wrappers shared by every module of the model. */
module Wrappers {
  /** A value that may be absent: JavaScript `undefined`/`null` become `None`. */
  datatype Option<+T> = None | Some(value: T)

  /** The outcome of a call that can fail with an error value. */
  datatype Result<+T, +E> = Ok(value: T) | Err(error: E)

  /** The outcome of a call that returns nothing but can fail. */
  datatype Outcome<+E> = Pass | Fail(error: E)

  /** The value when present, otherwise the default `d`. */
  function OrDefault<T>(x: Option<T>, d: T): (r: T)
    ensures x.Some? ==> r == x.value
    ensures x.None? ==> r == d
  {
    if x.Some? then x.value else d
  }
}
