/** Option, and the reply of a remote call that either answers or raises. */
module Wrappers {

  datatype Option<+T> = None | Some(value: T)

  /** What a service call gives back: a value, or an exception with its text. */
  datatype Reply<+T> = Ok(value: T) | Raised(message: string)
}
