/** Optional values and step outcomes shared by the model. */
module Wrappers {

  /** A value that may be absent (JavaScript `undefined`, or a falsy lookup). */
  datatype Option<+T> = None | Some(value: T)

  /** The outcome of a step that may throw: its value, or the thrown error's message. */
  datatype Result<+T> = Ok(value: T) | Err(message: string)
}
