/** Optional values and the outcome of one awaited server call. */
module Wrappers {

  /** A value that may be absent: JavaScript's null/undefined. */
  datatype Option<+T> = None | Some(value: T)

  /** What an awaited request yields: the response body, or the error it
      rejects with, carrying the server's `message` field when there is one
      (`err.response?.data?.message`). */
  datatype Outcome<+T> = Success(response: T) | Failure(message: Option<string>)

  /** JavaScript truthiness of an optional string: present and non-empty. */
  predicate Truthy(s: Option<string>)
  {
    s.Some? && s.value != ""
  }

  /** `message || fallback`: the server message when it is truthy, else the fallback. */
  function MessageOr(message: Option<string>, fallback: string): (r: string)
    ensures Truthy(message) ==> r == message.value
    ensures !Truthy(message) ==> r == fallback
    ensures r != "" <== fallback != ""
  {
    if Truthy(message) then message.value else fallback
  }
}
