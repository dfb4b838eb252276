/** Failure-compatible wrappers shared by every screen and the session store.
    A remote call of the REST client either answers with a value or throws;
    `Result` is that answer. */
module Common {

  datatype Option<+T> = None | Some(value: T)

  /** The outcome of one awaited service call. */
  datatype Result<+T> = Ok(value: T) | Err

  /** The outcome of a service call whose answer the caller ignores. */
  datatype Outcome = Done | Failed
}
