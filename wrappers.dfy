/** Result and error values shared by every module: a JavaScript `throw` becomes an `Err`. */
module Wrappers {
  datatype Option<T> = None | Some(value: T)

  /** The two kinds of exception the emulator throws: `RangeError` and plain `Error`. */
  datatype JsError = RangeError(message: string) | Error(message: string)

  datatype Result<T> = Ok(value: T) | Err(error: JsError)

  /** The outcome of an operation that returns nothing but may throw. */
  datatype Outcome = Done | Fail(error: JsError)
}
