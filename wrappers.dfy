/** Option, and the outcome of one call to the remote REST API.

    Every call the components make (axios through the shared client) is
    modelled as a value handed to the handler: the request either resolves
    with its response body, or rejects with an HTTP status (absent for a
    transport error) and whatever error body the server sent. */
module Wrappers {

  datatype Option<+T> = None | Some(value: T) {
    function GetOr(default: T): T {
      match this
      case Some(v) => v
      case None => default
    }
  }

  /** The `error.response.data` fields the handlers look at. */
  datatype ErrorBody = ErrorBody(message: Option<string>, description: Option<string>)

  datatype Reply<+T> =
    | Ok(data: T)
    | Failed(status: Option<int>, body: ErrorBody)
  {
    /** `err?.response?.status === 409`: the backend reports a booking conflict. */
    predicate IsConflict() {
      Failed? && status == Some(409)
    }
  }

  /** The JavaScript `a || b` on an optional string: the empty string is falsy. */
  function OrElse(s: Option<string>, default: string): (r: string)
    ensures s.Some? && s.value != "" ==> r == s.value
    ensures (s.None? || s.value == "") ==> r == default
  {
    if s.Some? && s.value != "" then s.value else default
  }
}
