/** Failure types shared by the whole model. */
module Wrappers {

  /** A value that may be missing. */
  datatype Option<+T> = None | Some(value: T)

  /** An outcome carrying either a value or an error. */
  datatype Result<+T, +E> = Ok(value: T) | Err(error: E)

  /** The range of the 64-bit unsigned integers carried on the wire. */
  type u64 = n: int | 0 <= n < 0x1_0000_0000_0000_0000
}
