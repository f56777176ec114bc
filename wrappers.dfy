/** Option and Result: the absent value of a dictionary lookup and the
    outcome of a step that may raise a Python exception. */
module Wrappers {

  datatype Option<+T> = None | Some(value: T)

  /** `Ok(value)` is a normal return; `Err(error)` is an exception whose
      `str()` is `error`. */
  datatype Result<+T, +E> = Ok(value: T) | Err(error: E)
}
