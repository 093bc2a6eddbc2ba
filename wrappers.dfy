/** Failure-carrying result types shared by the rest of the model. */
module Wrappers {

  datatype Option<+T> = None | Some(value: T)

  datatype Result<+T, +E> = Ok(value: T) | Err(error: E)

  /** The Python exceptions that the modelled scripts can let escape. */
  datatype Exception =
    | IndexError         // indexing past the end of a list or array
    | ZeroDivisionError  // Python float division by zero
    | ValueError         // csv.DictWriter given a row with keys outside its header
    | TypeError          // a VTK setter given a sequence of the wrong length
}
