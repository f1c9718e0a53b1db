/** Absent values and raised errors. */
module Wrappers {

  datatype Option<+T> = None | Some(value: T) {
    function GetOr(default: T): T {
      match this
      case Some(v) => v
      case None => default
    }
  }

  datatype Result<+T, +E> = Success(value: T) | Failure(error: E) {
    predicate IsFailure() {
      Failure?
    }

    function PropagateFailure<U>(): Result<U, E>
      requires Failure?
    {
      Failure(error)
    }

    function Extract(): T
      requires Success?
    {
      value
    }
  }

  /** Python's `a or b` on optional numbers: an absent or zero `a` yields `b`. */
  function Or(a: Option<real>, b: Option<real>): (r: Option<real>)
    ensures r == a || ((a == None || a == Some(0.0)) && r == b)
  {
    if a.Some? && a.value != 0.0 then a else b
  }

  /** Python's `a or default` when the default is a number. */
  function OrElse(a: Option<real>, default: real): real {
    if a.Some? && a.value != 0.0 then a.value else default
  }
}
