/** The two result shapes the other modules share. */
module Options {
  /** A value that may be absent: the program's `None`. */
  datatype Option<+T> = None | Some(value: T)

  /** A computed value, or the error the program raises instead. */
  datatype Result<+T, +E> = Ok(value: T) | Err(error: E)
}
