/** Failure-carrying values standing in for the Java exceptions of the fingerprint code. */
module Wrappers {

  datatype Option<+T> = None | Some(value: T)

  /** The only exception the fingerprint code raises itself. */
  datatype Error = IllegalArgument(message: string)

  /** A value, or the exception thrown instead of returning one. */
  datatype Result<+T> = Ok(value: T) | Err(error: Error)

  /** How a `void` Java method ended: normally, or by throwing. */
  datatype Outcome = Pass | Fail(error: Error)
}
