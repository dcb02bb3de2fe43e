/** Outcomes of calls that may throw: a Kotlin exception is a Failure, whose
    message may be null. */
module Failures {

  datatype Option<+T> = None | Some(value: T)

  /** A thrown exception; `message` is `Throwable.message`, which may be null. */
  datatype Failure = Failure(message: Option<string>)

  /** A value returned normally, or the exception a call threw. */
  datatype Result<+T> = Ok(value: T) | Err(failure: Failure)
}
