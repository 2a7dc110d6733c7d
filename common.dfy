/** Small wrappers shared by every module of the hub model. */
module Common {

  /** A nullable value (`string?`, `DateTime?`, a SQL NULL). */
  datatype Option<T> = None | Some(value: T)

  /** The outcome of a hub method: it completes, or an exception escapes it. That is a
      `HubException` from the methods that wrap their failures, and the raw database
      exception from `OnDisconnectedAsync` and the private `UpdateMessageStatus`. The
      exception and its text are not modelled, only that the call failed. */
  datatype Result<T> = Ok(value: T) | Error

  /** `!string.IsNullOrEmpty(s)` for a nullable string. */
  predicate HasText(s: Option<string>)
  {
    s.Some? && s.value != ""
  }

  /** `s ?? fallback` for a nullable string. */
  function OrElse(s: Option<string>, fallback: string): string
  {
    if s.Some? then s.value else fallback
  }
}
