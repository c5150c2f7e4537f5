/** Small value types shared by the modules of the storyboard model. */
module Wrappers {

  /** A value that may be absent: `null` / `undefined` in the application. */
  datatype Option<+T> = None | Some(value: T)

  /** The outcome of one call to the hosted backend: the returned record, or the error it reported. */
  datatype Remote<+T> = Ok(value: T) | Err(message: string)
}
