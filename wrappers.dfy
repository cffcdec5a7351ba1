/** Wrappers shared by the model's modules. */
module Wrappers {

  /** An optional value: the source's `undefined` or a present value. */
  datatype Option<+T> = None | Some(value: T)

  /** A computed value, or the error the source would throw instead. */
  datatype Result<+R, +E> = Ok(value: R) | Err(error: E)
}
