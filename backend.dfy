/** Optional values (`T | null`, `T | undefined`) and the outcome of a call to
    the remote REST API, which the model receives as an input instead of
    performing the request. */
module Wrappers {

  datatype Option<+T> = None | Some(value: T) {
    function GetOr(default: T): T {
      match this
      case Some(v) => v
      case None => default
    }
  }
}

module Backend {
  import opened Wrappers

  /** What an awaited service call produced: the response body, or a rejection
      carrying `err.response?.data?.message` when the server sent one. */
  datatype Reply<+T> = Ok(value: T) | Err(message: Option<string>)

  /** What an async handler that rethrows hands back to its caller:
      it resolved, or it rejected with the server's message. */
  datatype Status = Done | Failed(message: Option<string>)

  /** `err.response?.data?.message || fallback`: a missing or empty server
      message falls back to the component's own text. */
  function ErrorText(message: Option<string>, fallback: string): (r: string)
    ensures r == fallback || (message.Some? && r == message.value)
    ensures r == "" ==> fallback == ""
    ensures message.Some? && message.value != "" ==> r == message.value
    ensures !(message.Some? && message.value != "") ==> r == fallback
  {
    if message.Some? && message.value != "" then message.value else fallback
  }
}
