/** Errors the modelled Python code raises, and a failure-compatible result type for them. */
module Outcomes {

  /** The exceptions that reach the caller of the modelled functions. */
  datatype Error =
    | ZeroDivision              // Python's ZeroDivisionError from a `/` by zero
    | NoCameraShape(node: string) // ValueError: a transform with no camera shape under it
    | NotACamera(node: string)    // the host's camera query fails on a node that is not a camera

  datatype Option<+T> = None | Some(value: T)

  datatype Result<+T> = Ok(value: T) | Err(error: Error) {
    predicate IsFailure() {
      Err?
    }

    function PropagateFailure<U>(): Result<U>
      requires Err?
    {
      Err(error)
    }

    function Extract(): T
      requires Ok?
    {
      value
    }
  }
}
