/** Failure-carrying datatypes shared by the bot's modules, and the shape of a
    value thrown by an awaited call. */
module Wrappers {

  datatype Option<+T> = None | Some(value: T)

  /** A computation that yields a value or fails with an error. */
  datatype Result<+T, +E> = Success(value: T) | Failure(error: E)

  /** A computation that yields nothing on success (an awaited `Promise<void>`). */
  datatype Outcome<+E> = Pass | Fail(error: E)

  /** What a rejected promise carries: either an `Error` object with its
      `message`, or some other thrown value. */
  datatype Thrown = ErrorObject(message: string) | NonError

  /** The text both catch blocks of the bot derive from a thrown value:
      the error's message, or a fixed stand-in when it is not an `Error`. */
  function ErrorMessage(t: Thrown): (m: string)
    ensures t.ErrorObject? ==> m == t.message
    ensures t.NonError? ==> m == "Unknown error"
  {
    match t
    case ErrorObject(msg) => msg
    case NonError => "Unknown error"
  }
}
