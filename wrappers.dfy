/** Failure-carrying values shared by the modules of this model. */
module Wrappers {

  /** An optional constructor argument: Python's `None` default or a value. */
  datatype Option<+T> = None | Some(value: T)
  {
    /** The value, or `default` for `None`. */
    function UnwrapOr(default: T): T
    {
      if Some? then value else default
    }
  }

  /** The value of an operation that may raise a Python exception instead. */
  datatype Result<+T, +E> = Success(value: T) | Failure(error: E)
}
