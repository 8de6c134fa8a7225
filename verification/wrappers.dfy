/** Failure-compatible result types standing in for the Java exceptions and
    nullable references of the sky engine. */
module Wrappers {

  /** The exception kinds the modelled code can raise. */
  datatype Exception =
    | IllegalArgument      // IllegalArgumentException, from the precondition checks
    | NullPointer          // NullPointerException, from Objects.requireNonNull and List.copyOf
    | IndexOutOfBounds     // ArrayIndexOutOfBoundsException, from a short record
    | NumberFormat         // NumberFormatException, from numeric parsing
    | UnreachableBranch    // java.lang.Error / default branch of an exhaustive switch

  /** A nullable reference or an optional value. */
  datatype Option<+T> = None | Some(value: T) {
    predicate IsFailure() { None? }

    function PropagateFailure<U>(): Option<U>
      requires None?
    {
      None
    }

    function Extract(): T
      requires Some?
    {
      value
    }
  }

  /** Either a value or the exception the Java code throws. */
  datatype Result<+T> = Success(value: T) | Failure(error: Exception) {
    predicate IsFailure() { Failure? }

    function PropagateFailure<U>(): Result<U>
      requires Failure?
    {
      Failure(error)
    }

    function Extract(): T
      requires Success?
    {
      value
    }
  }

  /** A check that either passes or throws. */
  datatype Outcome = Pass | Fail(error: Exception) {
    predicate IsFailure() { Fail? }

    function PropagateFailure<U>(): Result<U>
      requires Fail?
    {
      Failure(error)
    }
  }
}
