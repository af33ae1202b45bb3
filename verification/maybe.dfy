/** Absent values and failing operations.

    `Option` stands for a cell that may hold no value (pandas' NaN in a
    numeric column); `Result` stands for an operation that either produces a
    value or raises (an `IndexError`, a `KeyError`, an `OverflowError`, a
    `ValueError`).
 */
module Maybe {

  datatype Option<+T> = None | Some(value: T)

  /** The exceptions the modelled code can raise. */
  datatype Error =
    | KeyError(column: string)   // a selected column does not exist
    | IndexError                 // a negative index past the front of an array
    | OverflowError              // a date beyond the last representable one
    | ValueError                 // a metric or a fit given no samples

  datatype Result<+T> = Ok(value: T) | Err(error: Error)
}
