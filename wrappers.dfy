/** Option and Result values shared by the whole model (Rust's `Option` and `Result`). */
module Wrappers {

  datatype Option<+T> = None | Some(value: T)

  datatype Result<+T, +E> = Ok(value: T) | Err(error: E)

  /** A failure value carrying only a message, as `color_eyre::eyre::ErrReport` does here. */
  datatype Report = Report(message: string)
}
