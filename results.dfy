/** Failure-carrying values shared by the other modules. */
module Results {

  datatype Option<+T> = None | Some(value: T)

  /** The outcome of a fallible call: a value, or an error whose text is opaque. */
  datatype Outcome<+T> = Ok(value: T) | Err(error: string)
}
