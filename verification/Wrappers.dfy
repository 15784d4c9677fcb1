/** Optional values, and calls that may throw. */
module Wrappers {
  datatype Option<+T> = None | Some(value: T)

  /** A call either returns or throws. */
  datatype Outcome<+T> = Returned(value: T) | Threw {
    predicate IsFailure() {
      Threw?
    }

    function PropagateFailure<U>(): Outcome<U>
      requires Threw?
    {
      Threw
    }

    function Extract(): T
      requires Returned?
    {
      value
    }
  }
}
