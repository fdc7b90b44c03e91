/** Small wrapper datatypes shared by the other modules. */
module Util {

  /** An optional value: `None` plays the role of a C null pointer or a Python `None`. */
  datatype Option<+T> = None | Some(value: T)

  /** The outcome of an operation that can fail, such as a Python dictionary lookup. */
  datatype Result<+T, +E> = Ok(value: T) | Err(error: E)
}
