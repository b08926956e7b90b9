/**
 * Nullable values and the exceptions the modelled Java code throws.
 * A Java reference that may be `null` is an `Option`; a call that may
 * throw returns a `Result` (or an `Outcome` when it returns nothing).
 */
module Results {

  datatype Option<+T> = None | Some(value: T)

  /** The exception classes thrown by the modelled code. */
  datatype Error =
    | NullPointer                 // java.lang.NullPointerException (Objects.requireNonNull)
    | IllegalArgument(message: string)
    | IllegalState(message: string)
    | NoSuchElement               // Optional.orElseThrow on an empty Optional
    | IndexOutOfBounds            // StringBuilder.delete / List.get out of range

  datatype Result<+T> = Ok(value: T) | Err(error: Error)

  /** The outcome of a `void` Java method: it returned, or it threw. */
  datatype Outcome = Pass | Fail(error: Error)
}
