/** Option and Result types shared by the codec, the builders and the batch assembler. */
module Wrappers {

  datatype Option<+T> = None | Some(value: T)

  /** The ways building a mint transaction can fail before anything is submitted. */
  datatype Error =
    | EncodingError      // a value does not fit its field (e.g. decimals > 255, amount >= 2^64)
    | DecodingError      // a buffer shorter than the layout, or bytes that are not the expected record
    | NoValidDerivation  // the program-address search found no off-curve address
    | BuilderFailure     // a collaborator (metadata upload) failed while building an instruction

  datatype Result<+T> = Ok(value: T) | Err(error: Error)
}
