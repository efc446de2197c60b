/** Failure-carrying results, and the Python exceptions the experiment drivers can raise. */
module Wrappers {

  datatype Option<+T> = None | Some(value: T)

  /** A value or an error; usable with `:-`. */
  datatype Result<+R, +E> = Success(value: R) | Failure(error: E) {

    predicate IsFailure() {
      Failure?
    }

    function PropagateFailure<U>(): Result<U, E>
      requires Failure?
    {
      Failure(error)
    }

    function Extract(): R
      requires Success?
    {
      value
    }
  }

  /** The uncaught exceptions that end a run of the drivers.
      `KeyError(Some(k))` is a missing dictionary key `k`;
      `KeyError(None)` is `set.remove(None)` when `None` is absent. */
  datatype PyError = StopIteration | KeyError(key: Option<string>) | IndexError
}
