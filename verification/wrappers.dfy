/** Failure-carrying values shared by the model. */
module Wrappers {

  /** A nullable value: `None` stands for JavaScript `null` / Python `None`. */
  datatype Option<+T> = None | Some(value: T)

  /** The outcome of a call that may throw: `Err` carries the thrown error's message. */
  datatype Result<+T> = Ok(value: T) | Err(error: string)
}
