/** Optional values and the assertion failures of the program, as values. */
module Wrappers {

  datatype Option<+T> = None | Some(value: T)

  /** A Python `assert` that fails raises AssertionError; the model returns
      which assertion fired instead. */
  datatype Fault =
    | BadPitch             // "Bad pitch": a black key inside the keyboard range
    | StillHaveStuffToPlay // recording while the cursor is not at the tail
    | DivisionByZero       // the confidence score of an empty piece

  datatype Result<+T> = Ok(value: T) | Err(fault: Fault)
}
