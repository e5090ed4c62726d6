/** Outcome of an operation that the Go code may abort with a panic. */
module Panics {

  /** `Ok(value)` is a normal return; `Panic(message)` is a panic carrying `message`,
      after which the operation has changed nothing. */
  datatype Result<T> = Ok(value: T) | Panic(message: string)
}
