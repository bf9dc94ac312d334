/** The optional values and error returns that Rust's `Option` and `Result<_, Box<dyn Error>>`
    stand for; an error carries the text its `Display` implementation prints. */
module Wrappers {

  datatype Option<+T> = None | Some(value: T)

  datatype Result<+T> = Ok(value: T) | Err(message: string)

  /** `Result<(), Box<dyn Error>>`. */
  datatype Outcome = Pass | Fail(message: string)
}
