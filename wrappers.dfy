/** Option and Result values used for the collaborators' answers. */
module Wrappers {

  datatype Option<+T> = None | Some(value: T)

  /** An upstream call either yields a value or fails with the message it reports. */
  datatype Result<+T> = Ok(value: T) | Err(message: string)
}
