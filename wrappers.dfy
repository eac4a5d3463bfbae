/** Option and Result values standing in for Python's `None` and raised exceptions. */
module Wrappers {

  datatype Option<+T> = None | Some(value: T)

  /** `Ok` carries a returned value; `Err` the message of a raised `ValidationError`
      or the reason an operation raised. */
  datatype Result<+T> = Ok(value: T) | Err(message: string)
}
