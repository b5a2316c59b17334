/** Optional values and fallible results, shared by every module of the model. */
module Wrappers {

  /** Python's `Optional[T]`: `None` or a value. */
  datatype Option<T> = None | Some(value: T)

  /** The outcome of an operation that raises in the source: either a value or the
      message of the exception it raises. */
  datatype Result<T> = Ok(value: T) | Err(message: string)
}
