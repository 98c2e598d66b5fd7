/**
  The exceptions the core can raise, and a Result type that carries them.
  The four capability errors transcribe core/exceptions.py; `ValueError`
  is Python's built-in one (bad time range, missing environment variables,
  blank text), `KeyError` a read of a state key that was never written
  (its message is the key); `ModelError` is any failure of a
  language-model call.
 */
module Exceptions {

  datatype Error =
    | SpeechToTextError(message: string)
    | TextToSpeechError(message: string)
    | TextToImageError(message: string)
    | ImageToTextError(message: string)
    | ValueError(message: string)
    | KeyError(message: string)
    | ModelError(message: string)

  /** A computation that either returns a value or raises `error`. */
  datatype Result<+T> = Ok(value: T) | Err(error: Error) {

    predicate IsFailure() {
      Err?
    }

    function PropagateFailure<U>(): Result<U>
      requires Err?
    {
      Err(error)
    }

    function Extract(): T
      requires Ok?
    {
      value
    }
  }
}
