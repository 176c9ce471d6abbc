/** The Java exceptions the generator can raise, and the failure-compatible
    wrappers that carry them through the model. */
module Outcomes {

  /** The unchecked exceptions the modelled code can throw. */
  datatype Error =
    | IllegalArgument     // a non-positive bound given to nextInt, a non-positive image size
    | NegativeArraySize   // `new T[n]` with n < 0
    | IndexOutOfBounds    // an array read past its end
    | NullPointer         // a null reference dereferenced

  datatype Option<+T> = None | Some(value: T)

  /** A computed value or the exception that ended the computation. */
  datatype Result<+T> = Success(value: T) | Failure(error: Error) {
    predicate IsFailure() { Failure? }

    function PropagateFailure<U>(): Result<U>
      requires Failure?
    {
      Failure(error)
    }

    function Extract(): T
      requires Success?
    {
      value
    }

    /** The same outcome carrying u instead of the value. */
    function Replace<U>(u: U): Result<U>
    {
      if Success? then Success(u) else Failure(error)
    }
  }
}
