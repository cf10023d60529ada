/** Resolving the caller of a task request from its session token
    (`getUserFromRequest`, which behaves identically in the task and export
    routes). Token decoding and signature checking are an outside step; the
    model receives its outcome. */
module Identity {
  import opened Types

  /** The claims of a session token that the application reads. */
  datatype Token = Token(id: Option<UserId>, name: Option<string>, email: Option<string>)

  /** What decoding the request's token produced: no token, a token, or an
      exception. */
  datatype TokenOutcome = NoToken | Decoded(token: Token) | DecodeError

  /** The caller, when the token is present and carries a truthy `id` and
      `email`; no identity otherwise, including when decoding threw. */
  function UserFromRequest(t: TokenOutcome): (r: Option<UserSession>)
    ensures r.Some? <==> t.Decoded? && IdTruthy(t.token.id) && Truthy(t.token.email)
    ensures r.Some? ==> (r.value.id == t.token.id.value
                         && r.value.email == t.token.email.value
                         && r.value.name == t.token.name)
  {
    match t
    case Decoded(tok) =>
      if IdTruthy(tok.id) && Truthy(tok.email) then
        Some(UserSession(tok.id.value, tok.name, tok.email.value))
      else None
    case _ => None
  }
}
