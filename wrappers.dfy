/** Small value types shared by every part of the model. */
module Wrappers {

  datatype Option<+T> = None | Some(value: T)

  /** What a JavaScript `catch (err)` can receive: an `Error` object (its
      `message` is readable) or any other thrown value. */
  datatype Thrown = ErrorValue(message: string) | NonError

  /** The result of an awaited remote call: it resolves with a value or it
      rejects with a thrown value. */
  datatype Outcome<+T> = Ok(value: T) | Fail(thrown: Thrown)

  /** The idiom `err instanceof Error ? err.message : fallback` used by every
      handler that records an error. */
  function MessageOr(t: Thrown, fallback: string): (m: string)
    ensures t.ErrorValue? ==> m == t.message
    ensures t.NonError? ==> m == fallback
  {
    match t
    case ErrorValue(msg) => msg
    case NonError => fallback
  }
}
