/** Failure-carrying values: an optional value, a value-or-error result and
    a pass-or-fail outcome. Go's `(value, error)` pairs become `Result`s and
    bare `error` returns become `Outcome`s. */
module Wrappers {

  datatype Option<+T> = None | Some(value: T)

  datatype Result<+R, +E> = Success(value: R) | Failure(error: E) {
    /** The error-only view of a result, as a caller that discards the value sees it. */
    function ToOutcome(): (o: Outcome<E>)
      ensures o.Pass? <==> Success?
      ensures Failure? ==> o == Fail(error)
    {
      match this
      case Success(_) => Pass
      case Failure(e) => Fail(e)
    }
  }

  datatype Outcome<+E> = Pass | Fail(error: E)
}
