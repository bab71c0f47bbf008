/** Option and Result values used for the Go code's `(value, error)` pairs. */
module Wrappers {

  /** `None` stands for Go's `nil`; `Some(e)` for a non-nil value, here usually an error's text. */
  datatype Option<+T> = None | Some(value: T)

  /** A value or the text of the error that replaced it. */
  datatype Result<+T> = Ok(value: T) | Err(error: string)
}
