/**
  The error values of the adapter and the optional/fallible results that
  carry them.
 */
module Errors {

  datatype Option<+T> = None | Some(value: T)

  /**
    A Go `error`. The two validation errors are the adapter's own
    (errors.New with a fixed message); every other error comes from the
    transfer engine and is opaque here apart from its message.
   */
  datatype Error =
    | FileAtPathNotSet
    | SharedSecretNotSet
    | EngineError(message: string)
  {
    /** The text the Go error value reports. */
    function Message(): string
    {
      match this
      case FileAtPathNotSet => "fileAtPath is not set"
      case SharedSecretNotSet => "shared secret is not set"
      case EngineError(m) => m
    }

    /** The adapter rejected its input before talking to the engine. */
    predicate IsValidation()
    {
      FileAtPathNotSet? || SharedSecretNotSet?
    }
  }

  datatype Result<+T> = Success(value: T) | Failure(error: Error)
}
