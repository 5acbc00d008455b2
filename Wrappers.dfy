/** Error outcomes shared by the keyed collections and the statement. */
module Wrappers {

  /** The exceptions the data model raises. */
  datatype Error =
    | OutOfBounds      // lookup of a language code that has no entry
    | InvalidArgument  // a value that fails a domain constraint (a statement rank)

  /** A value, or the exception that was raised instead. */
  datatype Result<+T> = Ok(value: T) | Err(error: Error)

  /** A call that returns nothing, or the exception it raised. */
  datatype Outcome = Pass | Fail(error: Error)

  datatype Option<+T> = None | Some(value: T)
}
