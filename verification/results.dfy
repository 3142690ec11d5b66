/** Optional values, results and the exceptions the governed agents raise. */
module Results {

  datatype Option<+T> = None | Some(value: T)

  /** The Python exception classes that the modelled operations raise, with their messages. */
  datatype Error =
    | ValueError(message: string)
    | RuntimeError(message: string)
    | SubAgentExecutionException(message: string)

  /** A value, or the exception raised instead of returning one. */
  datatype Result<+T> = Ok(value: T) | Err(error: Error)

  /** The outcome of an operation that returns nothing (Python `None`) or raises. */
  datatype Outcome = Pass | Fail(error: Error)
}
