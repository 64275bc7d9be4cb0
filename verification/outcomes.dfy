/** Results and the exceptions the client raises. */
module Outcomes {

  datatype Option<+T> = None | Some(value: T)

  /** The exceptions that reach a caller of the client. */
  datatype Error =
    | NotFound         // NotFoundException: an id, name or key has no match
    | ValidationError  // pydantic's ValidationError: a response object breaks its model's schema
    | UnpackError      // ValueError from `x, = xs` when xs holds more than one element
    | IndexError       // IndexError from `xs[0]` on an empty list
    | KeyError         // KeyError from `del d[k]` when k is absent

  /** A value or the exception raised instead of returning it; usable with `:-`. */
  datatype Result<+T> = Success(value: T) | Failure(error: Error) {
    predicate IsFailure() {
      Failure?
    }

    function PropagateFailure<U>(): Result<U>
      requires Failure?
    {
      Failure(error)
    }

    function Extract(): T
      requires Success?
    {
      value
    }
  }
}
