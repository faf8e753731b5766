/** Option, and the shape of a value thrown by JavaScript code. */
module Wrappers {

  datatype Option<+T> = None | Some(value: T)

  /** What a `throw` delivers: an `Error` instance (with its `message`)
      or any other value (with its `String(...)` rendering). */
  datatype Thrown = ErrorInstance(message: string) | OtherThrown(rendered: string)
}
