/** Shared value types: optional values and the (status, message-or-body) replies of the HTTP handlers. */
module Common {

  /** A value that may be absent (Python `None`, JavaScript `null`/`undefined`). */
  datatype Option<+T> = None | Some(value: T)

  /** The reply of a route handler: a success status with its JSON body, or an error status with its message. */
  datatype Reply<+T> = Ok(status: int, body: T) | Fail(status: int, message: string)

  /** The Python/JavaScript truthiness of an optional integer such as an event capacity: `None` and `0` are falsy. */
  predicate Truthy(c: Option<int>)
  {
    c.Some? && c.value != 0
  }
}
