/** Values that the launch strategies pass around to report success and failure. */
module Outcomes {

  datatype Option<+T> = None | Some(value: T)

  /** JVM throwables fall in two families: an `Exception`, which a handler for exceptions
      catches, and an `Error`, which only a handler for every `Throwable` catches. */
  datatype ThrowableKind = ExceptionKind | ErrorKind

  datatype Throwable = Throwable(kind: ThrowableKind, message: string)

  /** `Exception(message)` as the strategies construct it. */
  function Failure(message: string): Throwable
  {
    Throwable(ExceptionKind, message)
  }

  /** The result of an external call the model cannot see: it returns a value or throws. */
  datatype Call<+T> = Returns(value: T) | Throws(cause: Throwable)

  /** The result of a call that returns nothing useful (Kotlin `Unit`). */
  datatype Outcome = Pass | Fail(cause: Throwable)

  /** What a `tryLaunch` invocation does: it returns its list of failures (empty on success),
      or a throwable escapes it. */
  datatype LaunchResult = Returned(errors: seq<Throwable>) | Raised(cause: Throwable)
}
