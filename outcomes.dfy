/** Errors the transformation engine reports, and the result types that carry them. */
module Outcomes {

  /** The ways a call into the engine can fail on the data it is given. */
  datatype Error =
    | DegenerateConstraint  // a circle legal path whose radius is not positive
    | SingularSystem        // the linear solve found no solution of the system

  datatype Result<+T> = Ok(value: T) | Err(error: Error) {
    predicate IsFailure() { Err? }

    function PropagateFailure<U>(): Result<U>
      requires Err?
    {
      Err(error)
    }

    function Extract(): T
      requires Ok?
    {
      value
    }
  }

  /**
   * An optional value. A transformed point is `None` where the engine's
   * floating-point division would produce an infinite or undefined point.
   */
  datatype Option<+T> = None | Some(value: T)
}
