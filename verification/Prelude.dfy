/** Small datatypes shared by every module of the model. */
module Prelude {

  /** A value that may be missing: a NULL column, an absent key. */
  datatype Option<+T> = None | Some(value: T)

  /** An answer, or the error the program raises instead. */
  datatype Result<+T, +E> = Ok(value: T) | Error(error: E)
}
