/** Option and Result: a NULL pointer or a Go `error` return, stated as a value. */
module Wrappers {

  datatype Option<+T> = None | Some(value: T)

  datatype Result<+T> = Ok(value: T) | Err(message: string)
}
