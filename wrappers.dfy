/** Option and Result, plus the Python exceptions the pipeline can raise. */
module Wrappers {

  datatype Option<+T> = None | Some(value: T)

  datatype Result<+T, +E> = Ok(value: T) | Err(error: E)

  /** The exception classes that escape the modelled code. `Unmodelled` marks an
      input the model does not follow (see README). */
  datatype Fault = AttributeError | TypeError | ValueError | Unmodelled
}
