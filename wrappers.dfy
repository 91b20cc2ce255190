/** Failure-carrying results used across the model in place of Python exceptions. */
module Wrappers {

  datatype Option<+T> = None | Some(value: T)

  /** A call that either returns `value` or raises `error`. */
  datatype Result<+R, +E> = Success(value: R) | Failure(error: E)

  /** A call that returns nothing useful, or raises `error`. */
  datatype Outcome<+E> = Pass | Fail(error: E)
}

/** Exception objects as the core sees them: only the class name and the text are observed. */
module Errors {

  /** An exception instance raised by a Routine, a hook or a circuit: `type(exc).__name__` and `str(exc)`. */
  datatype Exc = Exc(typeName: string, text: string)
}
