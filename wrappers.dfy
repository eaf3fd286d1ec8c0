/** Failure-compatible results and the Python exceptions the core can raise. */
module Wrappers {

  datatype Option<+T> = None | Some(value: T) {
    function GetOr(default: T): T {
      match this
      case Some(v) => v
      case None => default
    }
  }

  /** The exceptions the modelled code raises by itself. */
  datatype Error =
    | ZeroDivisionError   // a Python `/` whose divisor is 0
    | UnboundLocalError   // a local read before any assignment to it

  datatype Result<+T> = Success(value: T) | Failure(error: Error) {
    predicate IsFailure() {
      Failure?
    }

    function PropagateFailure<U>(): Result<U>
      requires Failure?
    {
      Failure(error)
    }

    function Extract(): T
      requires Success?
    {
      value
    }
  }

  /** Python's true division `a / b`, which raises on a zero divisor. */
  function Div(a: real, b: real): (r: Result<real>)
    ensures r.Failure? <==> b == 0.0
    ensures r.Failure? ==> r.error == ZeroDivisionError
    ensures r.Success? ==> r.value * b == a
  {
    if b == 0.0 then Failure(ZeroDivisionError) else Success(a / b)
  }

  /** The body of `except ZeroDivisionError: return 0` around a computation. */
  function OrZero(r: Result<real>): real {
    match r
    case Success(v) => v
    case Failure(_) => 0.0
  }

  function Abs(x: real): (r: real)
    ensures r >= 0.0
    ensures r == x || r == -x
  {
    if x < 0.0 then -x else x
  }
}
