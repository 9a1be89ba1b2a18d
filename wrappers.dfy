/** Stock option and result types shared by the other modules. */
module Wrappers {

  /** An absent value (Go's nil) or a present one. */
  datatype Option<+T> = None | Some(value: T)

  /** A computation that returns a value, or stops with a Go run-time panic. */
  datatype Result<+T> = Ok(value: T) | Panic(reason: string)
}
