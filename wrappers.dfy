/** Failure-carrying values shared by every module of the model. */
module Wrappers {

  /** Python's `Optional[T]`: `None` or a present value. */
  datatype Option<+T> = None | Some(value: T)

  /** The outcome of an operation that may raise. Every error the modelled code raises
      on purpose is a `ValueError`, so that is the only failure shape. */
  datatype Result<+T> = Ok(value: T) | ValueError(message: string)
}
