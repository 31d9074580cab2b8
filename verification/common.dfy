/** Option and Result: the "missing value" and "value or error" shapes shared by every module. */
module Common {

  /** A value that may be absent (JavaScript `undefined`/`null`). */
  datatype Option<+T> = None | Some(value: T)

  /** The outcome of a call that may throw: a value, or the thrown error's message. */
  datatype Result<+T> = Ok(value: T) | Err(message: string)

  /** How a promise settles: with a value, or rejected with an error message. */
  datatype Settled<+T> = Resolved(value: T) | Rejected(reason: string)

  /** A plain message object whose fields are strings. */
  type Payload = map<string, string>

  /** JavaScript truthiness of an optional string: present and non-empty. */
  predicate Truthy(s: Option<string>)
  {
    s.Some? && s.value != ""
  }
}
