/** Small value types shared by the facade and the item model. */
module Common {

  /** An optional value, for lookups that may find nothing. */
  datatype Option<T> = None | Some(value: T)

  /** The exceptions the facade throws to its callers. */
  datatype Error =
    /** PHP's OutOfBoundsException, with the message the facade gives it. */
    | OutOfBounds(message: string)
    /** Whatever the reader throws (a fetch or parse failure); the facade passes it on unchanged. */
    | ReaderFailure(url: string)
    /** Whatever a fixer throws while correcting a feed; the facade passes it on unchanged. */
    | FixerFailure

  /** A value, or the exception thrown instead of returning it. */
  datatype Result<T> = Ok(value: T) | Err(error: Error)
}
