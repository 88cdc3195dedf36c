/** Failure-carrying result types shared by the whole model. */
module Outcomes {

  /** An optional value: Rust's `Option<T>`, and also a `Result<T, ()>` whose error carries nothing. */
  datatype Option<+T> = None | Some(value: T)

  /** The outcome of a call that may panic: `Panic` ends the calling thread, so no state
      survives it; `Ok` carries the value the call returned. */
  datatype Checked<+T> = Ok(value: T) | Panic(message: string)
}
