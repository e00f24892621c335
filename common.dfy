/** Optional values and the outcome of a call that can fail, as the site's code uses them:
    `undefined`/`null` against a value, and a resolved promise against a thrown `Error`. */
module Common {

  datatype Option<T> = None | Some(value: T)

  /** The result of an asynchronous call: its value, or the message of the `Error` it threw. */
  datatype Result<T> = Ok(value: T) | Err(message: string)

  /** A call that resolves without a value (`Promise<void>`), or throws. */
  datatype Outcome = Done | Failed(message: string)

  /** JavaScript truthiness of an optional string: `undefined`, `null` and `''` are falsy. */
  predicate Truthy(s: Option<string>) {
    s.Some? && s.value != ""
  }
}
