/** Shared result shapes: Python's `None`, and the exceptions the modelled code raises. */
module Wrappers {

  /** A value or Python's `None`. */
  datatype Option<+T> = None | Some(value: T)

  /** The built-in exceptions raised by the modelled operations. */
  datatype PyError =
    | ValueError           // `list.remove` of an absent element
    | IndexError           // list indexing out of range
    | NotImplementedError  // an abstract method called on the base class

  /** A returned value, or the exception raised instead. */
  datatype Result<+T> = Ok(value: T) | Err(error: PyError)

  /** An operation that returns nothing, or raises. */
  datatype Outcome = Pass | Fail(error: PyError)
}
