/** Option and Result values shared by the model's modules. */
module Wrappers {

  datatype Option<+T> = None | Some(value: T)

  /** The outcome of an operation that the C# loaders abort by throwing an exception. */
  datatype Result<+T, +E> = Ok(value: T) | Err(error: E)
}
