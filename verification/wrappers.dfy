/** Optional values and the outcome of a call into an external service. */
module Wrappers {

  /** Python's `Optional[T]`: a value that may be `None`. */
  datatype Option<+T> = None | Some(value: T) {

    /** The value, or `default` when there is none. */
    function GetOr(default: T): T {
      match this
      case Some(v) => v
      case None => default
    }
  }

  /** What a call into the Reddit or Groq client produced: its value, or
      the text of the exception it raised (`str(e)`). */
  datatype Result<+T> = Ok(value: T) | Failure(message: string)
}
