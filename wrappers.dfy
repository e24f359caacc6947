/** Small result types shared by the modules of the model. */
module Wrappers {

  /** A value that may be absent: JavaScript's `null`/`undefined` or Python's `None`. */
  datatype Option<+T> = None | Some(value: T)

  /** How a Python method ends: it returns a value, or an exception escapes from it. */
  datatype Outcome<+T> = Returned(value: T) | Raised(exception: string)
}
