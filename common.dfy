/** Values shared by every service of the order management system: the
    exceptions the services raise and the wrappers that carry either a value
    or such an exception. */
module Common {

  /** A Java reference that may be null. */
  datatype Option<+T> = None | Some(value: T)

  /** The exceptions that reach a caller of one of the services: the domain
      exceptions of the api package and the framework exceptions that the
      services let through. */
  datatype Error =
    | NotFound(message: string)
    | InvalidInput(message: string)
    | OutOfStock(message: string)
    | EventProcessing(message: string)
    | DuplicateKey(message: string)
    | NullPointer
    | NoSuchElement
    | IllegalState(message: string)

  /** An operation that either yields a value or raises an `Error`. */
  datatype Result<+T> = Success(value: T) | Failure(error: Error) {
    predicate IsFailure() {
      Failure?
    }

    function PropagateFailure<U>(): Result<U>
      requires Failure?
    {
      Failure(error)
    }

    function Extract(): T
      requires Success?
    {
      value
    }
  }

  /** An operation that returns nothing or raises an `Error`, such as the
      `validate…` helpers that throw on bad input. */
  datatype Outcome = Pass | Fail(error: Error) {
    predicate IsFailure() {
      Fail?
    }

    function PropagateFailure<U>(): Result<U>
      requires Fail?
    {
      Failure(error)
    }
  }
}
