/** Small value types shared by every module: optional values, results that
    may carry a thrown JavaScript error, and the truthiness test the source
    applies to strings read from storage. */
module Base {

  datatype Option<+T> = None | Some(value: T)

  /** A thrown JavaScript `Error` object: its class name (`Error`,
      `TypeError`, an SDK subclass, ...) and its message. */
  datatype JsError = JsError(name: string, message: string)

  /** An error raised by `new Error(message)`. */
  function PlainError(message: string): JsError
  {
    JsError("Error", message)
  }

  /** The value of an operation that may throw instead of returning. */
  datatype Result<+T> = Ok(value: T) | Err(error: JsError)

  /** The value of an operation that returns nothing or throws. */
  datatype Outcome = Pass | Fail(error: JsError)

  /** Template-literal rendering of an error object, `${error}`, which is
      `Error.prototype.toString`: the name and the message joined by ": ",
      or whichever of the two is non-empty when the other is empty. */
  function ErrorText(e: JsError): string
  {
    if e.message == "" then e.name
    else if e.name == "" then e.message
    else e.name + ": " + e.message
  }

  /** JavaScript truthiness of a possibly missing string: absent and "" are falsy. */
  predicate Truthy(s: Option<string>)
  {
    s.Some? && s.value != ""
  }
}
