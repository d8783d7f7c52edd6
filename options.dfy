/** Optional values and results that may carry a raised exception. */
module Options {

  datatype Option<T> = None | Some(value: T)

  /** The value a Python expression evaluates to, or the exception it raises. */
  datatype Result<T, E> = Ok(value: T) | Err(error: E)
}
