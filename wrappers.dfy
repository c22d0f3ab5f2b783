/** Outcomes shared by the backtester's modules: an optional value (the cursor's
    "next or stop") and a result that carries the exception the Python code
    would raise instead of a value. */
module Wrappers {

  datatype Option<+T> = None | Some(value: T)

  /** The exceptions the modelled code can raise and that the model keeps. */
  datatype Error =
    | KeyError(column: string)   // a requested column is absent from a row
    | ValueError                 // `max` of an empty list
    | IndexError                 // `[-1]` of an empty list
    | ZeroDivisionError          // a float divided by zero

  datatype Result<+T> = Ok(value: T) | Err(error: Error)
}
