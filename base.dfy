/** Types shared by the whole model. */
module Base {

  datatype Option<+T> = None | Some(value: T)

  /** Wall-clock time as the JavaScript `Date.now()` value: milliseconds since the epoch. */
  type Millis = nat

  /** The `_id` of a user document. Users are never deleted, so the model
      numbers them by insertion order; the ObjectId/string conversions
      between the token, the request and the task document are the identity. */
  type UserId = nat

  /** JavaScript truthiness of an optional string from a JSON body or a
      query string: absent (`undefined`) and the empty string are falsy. */
  predicate Truthy(s: Option<string>)
  {
    s.Some? && s.value != ""
  }

  /** How a client request through axios ends: the response data, or a
      rejection carrying `error.response?.data?.message` when there is one. */
  datatype Outcome<+T> = Ok(data: T) | Failed(serverMessage: Option<string>)

  /** `a || b` for an optional string: `a` when it is truthy, otherwise `b`. */
  function OrElse(a: Option<string>, b: string): (r: string)
    ensures Truthy(a) ==> r == a.value
    ensures !Truthy(a) ==> r == b
  {
    if Truthy(a) then a.value else b
  }
}
