/** The driver's single error kind and the result type every operation returns
    (src/error.rs). */
module Errors {

  /** Any pin, bus or channel failure, whatever its underlying cause. */
  datatype Error = Error

  /** `core::result::Result<T, Error>`. */
  datatype Result<T> = Ok(value: T) | Err(error: Error)

  /** The result of the instruction decoders (`EntryModes.Decode`,
      `DisplayControl.Decode`), which the source does not have: they are the
      reference inverses of the `as_byte` encoders. Declared here, beside
      `Result`, so that both encoder modules share one definition. */
  datatype Option<T> = None | Some(value: T)
}
