/** Failure-carrying values used in place of the source's exceptions and `None`. */
module Results {

  datatype Option<T> = None | Some(value: T)

  /** `Err` carries the message the source's exception would carry. */
  datatype Result<T> = Ok(value: T) | Err(message: string)
}
