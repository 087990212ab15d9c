/** Absent values and fallible results, shared by the configuration, the
    search handler and the session slot. Both types support `:-`, so a
    missing environment variable or a rejected enum name short-circuits
    the computation that needs it. */
module Wrappers {

  /** An optional command-line flag, environment variable or tool argument:
      JavaScript's `undefined` is `None`. */
  datatype Option<+T> = None | Some(value: T) {

    /** `:-` stops at an absent value. */
    predicate IsFailure() {
      None?
    }

    function PropagateFailure<U>(): Option<U>
      requires None?
    {
      None
    }

    function Extract(): T
      requires Some?
    {
      value
    }

    /** What a destructuring default `{ x = d }` binds: the supplied value,
        or `d` when the field is absent. */
    function GetOr(d: T): T {
      if Some? then value else d
    }
  }

  /** A resolved value, or the reason it could not be resolved (a missing
      API key, a rejected tool call). */
  datatype Result<+R, +E> = Success(value: R) | Failure(error: E) {

    /** `:-` stops at the first failure. */
    predicate IsFailure() {
      Failure?
    }

    function PropagateFailure<U>(): Result<U, E>
      requires Failure?
    {
      Failure(error)
    }

    function Extract(): R
      requires Success?
    {
      value
    }
  }
}
