/** Optional values and the outcome of an operation that may throw. */
module Wrappers {

  datatype Option<+T> = None | Some(value: T)

  /** The exceptions the inventory core throws, with their messages. */
  datatype JavaException =
    | IllegalArgumentException(message: string)
    | RuntimeException(message: string)
    | NullPointerException

  /** A value returned normally, or the exception thrown instead. */
  datatype Result<+T> = Ok(value: T) | Err(error: JavaException)
}
