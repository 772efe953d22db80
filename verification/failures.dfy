/** The ways in which building a context graph can fail, and the result type
    that carries either a value or one of them. Building is all-or-nothing:
    an exception thrown part-way through discards everything built so far. */
module Failures {

  datatype Error =
      /** The property-set array held a null element at this index; reading its
          property names throws a NullPointerException. */
    | NullPropertySet(index: nat)
      /** A match of the tokenizer pattern has no capture group with the
          configured index (negative, or above the group count); reading that
          group throws IndexOutOfBoundsException. */
    | NoGroup(group: int)

  /** A value that Java code may leave null. */
  datatype Option<+T> = None | Some(value: T)

  datatype Result<+T> = Success(value: T) | Failure(error: Error) {

    predicate IsFailure() {
      Failure?
    }

    function PropagateFailure<U>(): Result<U>
      requires Failure?
    {
      Failure(error)
    }

    function Extract(): T
      requires Success?
    {
      value
    }
  }
}
