/**
 * Failure-carrying values for the exceptions the SDK throws. A Java reference
 * that may be null is an `Option`; a call that returns a value or throws is a
 * `Result`; a builder call that returns `this` or throws is an `Outcome`.
 */
module Errors {

  datatype Option<+T> = None | Some(value: T)

  /** The Java throwables raised by the SDK, each with its detail message. */
  datatype Error =
    | NullPointer(message: Option<string>) // NullPointerException; None when thrown without a message
    | IllegalArgument(detail: string)      // IllegalArgumentException
    | IllegalState(detail: string)         // IllegalStateException
    | Assertion(detail: string)            // AssertionError, raised only by the deserialization checks
  {
    /** The errors a caller's misuse raises, as opposed to a corrupted serialized form. */
    predicate IsUsageError() {
      !Assertion?
    }
  }

  datatype Result<+T> = Ok(value: T) | Err(error: Error)

  datatype Outcome = Pass | Fail(error: Error)

  /** The error both builders raise when a field is set a second time. */
  function AlreadySet(name: string): (e: Error)
    ensures e.IllegalState? && e.IsUsageError()
    ensures e.detail == name + " is already set."
  {
    IllegalState(name + " is already set.")
  }
}
