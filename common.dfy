/** Small value types shared by every part of the dashboard model. */
module Common {

  /** A value that may be absent: JavaScript's `null`/`undefined` is `None`. */
  datatype Option<+T> = None | Some(value: T) {
    /** JavaScript's `x ?? d` on an optional value. */
    function OrElse(default: T): T {
      match this
      case Some(v) => v
      case None => default
    }
  }

  /** The outcome of an awaited call: a value or what it threw. */
  datatype Result<+R, +E> = Success(value: R) | Failure(error: E)

  /** What a `catch` clause can receive: an `Error` object with its message, or any other thrown value. */
  datatype Thrown = ErrorObject(message: string) | OtherValue

  /** A toast notification shown to the user. */
  datatype Toast = SuccessToast(text: string) | ErrorToast(text: string)

  /**
   * The text every `catch` block of the dashboard shows:
   * `error instanceof Error ? error.message : fallback`.
   */
  function CaughtMessage(e: Thrown, fallback: string): (text: string)
    ensures e.ErrorObject? ==> text == e.message
    ensures e.OtherValue? ==> text == fallback
  {
    match e
    case ErrorObject(m) => m
    case OtherValue => fallback
  }
}
