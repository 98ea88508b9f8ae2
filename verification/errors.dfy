/** Optional values, results, and the errors the client raises. */
module Errors {
  import opened Http

  datatype Option<T> = None | Some(value: T)

  datatype Result<T> = Ok(value: T) | Err(error: Error)

  datatype Error =
      /** The server answered with a status outside 2xx. */
      HttpStatusError(response: RawResponse)
      /** Every permitted attempt ended in a 5xx; carries the last response. */
    | MaxRetriesExceeded(response: RawResponse)
      /** Any other exception raised while posting (connection failures and the like). */
    | UnexpectedError
      /** The terminal raise after the retry loop. */
    | UnreachableCode
      /** A PDF version outside [1.0, 2.0]. */
    | InvalidPdfRevision
      /** A metadata keyword containing a comma. */
    | InvalidKeyword
      /** A negative render wait. */
    | NegativeWaitDuration
      /** Extraction target missing or not a directory. */
    | CannotExtractHere
      /** A status or timestamp the health response cannot be read from. */
    | ValueError
      /** A file to be copied does not exist. */
    | FileNotFound
      /** A file to be copied is a directory, whose bytes cannot be read. */
    | IsADirectory
      /** A call with a keyword argument the callee does not accept. */
    | TypeErrorRaised
      /** The stored "metadata" field is not a JSON object and cannot be merged into. */
    | UnreadableMetadata
}
