/** Optional values and the outcome of a call that may raise a Python exception. */
module Outcomes {

  /** A value that may be absent (a dictionary key that is missing, Python's None). */
  datatype Option<+T> = None | Some(value: T)

  /** What a call into the Python runtime or an external service produced:
      a value, or an exception that propagates to the nearest enclosing handler.
      The model never needs the exception's class, only whether one was raised. */
  datatype Outcome<+T> = Ok(value: T) | Raised
}
