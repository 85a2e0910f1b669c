/** Optional values, the exceptions the modelled code raises, and results that carry them. */
module Wrappers {
  datatype Option<T> = None | Some(value: T)

  /** The Python exception classes the core raises, each with its message. */
  datatype Error =
    | ValueError(message: string)
    | RuntimeError(message: string)
    | ValidationError(message: string)
    | ConfigurationError(message: string)
    | AttributeError(message: string)

  datatype Result<T> = Ok(value: T) | Err(error: Error)
  {
    predicate IsValueError() { Err? && error.ValueError? }
  }
}
