/** Values shared by the session context and the pages that use it. */
module Common {

  datatype Option<T> = None | Some(value: T)

  /** The answer to one HTTP request: the response body, or a rejection that may
      carry the server's `error` field (`err.response?.data?.error`). */
  datatype Response<T> = Ok(data: T) | Err(error: Option<string>)

  /** How an awaited call ended: with a value, or by throwing. */
  datatype Call<T> = Returned(value: T) | Threw

  /** The `{ text, type }` banners shown by the pages. */
  datatype MessageKind = Success | Error
  datatype Message = Message(text: string, kind: MessageKind)

  /** JavaScript truthiness of a string that may be absent: `undefined`, `null`
      and the empty string are falsy. */
  predicate Truthy(s: Option<string>) {
    s.Some? && s.value != ""
  }

  /** JavaScript `s || fallback` for a string that may be absent. */
  function OrElse(s: Option<string>, fallback: string): (r: string)
    ensures Truthy(s) ==> r == s.value
    ensures !Truthy(s) ==> r == fallback
    ensures fallback != "" ==> r != ""
  {
    if Truthy(s) then s.value else fallback
  }
}
