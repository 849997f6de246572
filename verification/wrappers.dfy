/** Optional values and results, used for the source's `None` and for its exceptions, and the
    outcomes of database statements. */
module Wrappers {

  datatype Option<+T> = None | Some(value: T) {
    predicate IsFailure() { None? }

    function PropagateFailure<U>(): Option<U>
      requires None?
    {
      None
    }

    function Extract(): T
      requires Some?
    {
      value
    }
  }

  datatype Result<+T, +E> = Success(value: T) | Failure(error: E)

  /** How a database statement or commit ends: acknowledged, in effect but not acknowledged, or
      refused without effect. */
  datatype Outcome = Acknowledged | Unacknowledged | Refused
}
