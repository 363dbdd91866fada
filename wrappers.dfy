/** Option and Result, the model's stand-ins for nullable pointers, std::optional and thrown exceptions. */
module Wrappers {

  /** None plays the part of a null pointer or an empty std::optional. */
  datatype Option<+T> = None | Some(value: T)

  /** Err carries what the source would have thrown. */
  datatype Result<+R, +E> = Ok(value: R) | Err(error: E)
}
