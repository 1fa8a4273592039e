/** Optional values and raised exceptions, the two ways the backend's Python
    code signals that something is absent or went wrong. */
module Outcomes {

  datatype Option<T> = None | Some(value: T)

  /** A Python exception; only its `str(e)` is observable to the code. */
  datatype Fault = Fault(message: string)

  /** A computation that either returns a value or raises. Failure-compatible,
      so `:-` propagates a raised exception the way Python unwinds. */
  datatype Result<T> = Ok(value: T) | Raised(fault: Fault) {
    predicate IsFailure() {
      Raised?
    }

    function PropagateFailure<U>(): Result<U>
      requires Raised?
    {
      Raised(fault)
    }

    function Extract(): T
      requires Ok?
    {
      value
    }
  }
}
