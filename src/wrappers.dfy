/** Option and Result: the model's form of Go's nil pointers and `(value, error)` returns. */
module Wrappers {

  datatype Option<+T> = None | Some(value: T)

  /** `Err` carries the text of the Go error. */
  datatype Result<+T> = Ok(value: T) | Err(msg: string)

  /** An operation that returns only a Go `error`. */
  datatype Outcome = Pass | Fail(msg: string)
}
