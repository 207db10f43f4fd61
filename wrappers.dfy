/** Small helper datatypes shared by the other modules. */
module Wrappers {
  datatype Option<T> = None | Some(value: T)

  /** The outcome of a call that may raise: its value, or the exception it raises. */
  datatype Result<T, E> = Ok(value: T) | Err(error: E)

  /** The smaller of two integers. */
  function Min(a: int, b: int): (m: int)
  {
    if a <= b then a else b
  }
}
