/** Value wrappers shared by every component model.

    A remote call of the dashboard (an axios or fetch request to the backend)
    is never modelled itself: each one becomes an `Outcome` that the caller of
    a handler passes in, either the decoded response or the failure it raised. */
module Wrappers {

  /** A JavaScript value that may be `null` or `undefined`. */
  datatype Option<+T> = None | Some(value: T)

  /** The result of one awaited remote call: the decoded response body, or
      the failure (network error or non-2xx response) with its message. */
  datatype Outcome<+T> = Ok(value: T) | Fail(msg: string)
}
