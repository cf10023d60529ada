/** Credential sign-in and the session callbacks (`src/lib/auth.ts`). The
    user lookup and bcrypt's `compare` are outside the model and arrive as
    function parameters, each of which may report that it threw. */
module Auth {
  import opened Types
  import opened Identity
  import Registration

  /** What the sign-in form submitted; either field may be missing. */
  datatype Credentials = Credentials(email: Option<string>, password: Option<string>)

  /** The user `authorize` hands to the session layer: no password hash. */
  datatype AuthUser = AuthUser(id: int, name: string, email: string)

  /** The user lookup by email: a failure, or the rows found. */
  datatype Lookup = LookupFailed | Rows(rows: seq<Registration.UserRow>)

  /** bcrypt's `compare(password, hash)`: a failure, or its verdict. */
  datatype Comparison = CompareFailed | Matches | Mismatch

  /** The session object of the session callback. */
  datatype SessionUser = SessionUser(id: Option<UserId>, name: Option<string>, email: Option<string>)
  datatype Session = Session(user: Option<SessionUser>, expires: string)

  /** How long a session lasts, in seconds: thirty days. */
  const MaxAge: nat := 30 * 24 * 60 * 60

  lemma MaxAgeIsThirtyDays()
    ensures MaxAge == 2592000
  {
  }

  /** Both credentials present and non-empty. */
  predicate Supplied(c: Option<Credentials>) {
    c.Some? && Truthy(c.value.email) && Truthy(c.value.password)
  }

  /** `authorize(credentials)`: the first user row with that email, when its
      stored hash accepts the password; no user on any missing credential,
      unknown email, wrong password, or failure of either outside step. */
  function Authorize(
    c: Option<Credentials>,
    lookup: string -> Lookup,
    compare: (string, string) -> Comparison): (r: Option<AuthUser>)
    ensures !Supplied(c) ==> r == None
    ensures r.Some? <==>
      && Supplied(c)
      && lookup(c.value.email.value).Rows?
      && |lookup(c.value.email.value).rows| > 0
      && compare(c.value.password.value, lookup(c.value.email.value).rows[0].senha) == Matches
    ensures r.Some? ==>
      var u := lookup(c.value.email.value).rows[0];
      r.value == AuthUser(u.id, u.nome, u.email)
  {
    if !Supplied(c) then None
    else
      match lookup(c.value.email.value)
      case LookupFailed => None
      case Rows(rows) =>
        if |rows| == 0 then None
        else
          var u := rows[0];
          if compare(c.value.password.value, u.senha) == Matches then Some(AuthUser(u.id, u.nome, u.email))
          else None
  }

  /** Without both credentials the outside steps are never consulted: the
      result is the same whatever they would say. */
  lemma AuthorizeSkipsLookup(
    c: Option<Credentials>,
    l1: string -> Lookup, l2: string -> Lookup,
    c1: (string, string) -> Comparison, c2: (string, string) -> Comparison)
    requires !Supplied(c)
    ensures Authorize(c, l1, c1) == Authorize(c, l2, c2) == None
  {
  }

  /** The `jwt` callback: a signing-in user's id goes into the token;
      otherwise the token is returned unchanged. */
  function JwtCallback(token: Token, user: Option<AuthUser>): (r: Token)
    ensures user.None? ==> r == token
    ensures user.Some? ==> r.id == Some(NumId(user.value.id))
    ensures r.name == token.name && r.email == token.email
  {
    match user
    case Some(u) => token.(id := Some(NumId(u.id)))
    case None => token
  }

  /** The `session` callback: the token's id is copied into the session's
      user when the session has one; nothing else changes. */
  function SessionCallback(s: Session, token: Token): (r: Session)
    ensures r.expires == s.expires
    ensures r.user.Some? <==> s.user.Some?
    ensures r.user.Some? ==> r.user.value == s.user.value.(id := token.id)
  {
    match s.user
    case Some(u) => s.(user := Some(u.(id := token.id)))
    case None => s
  }

  /** The user table's lookup by email, in table order. */
  function LookupIn(users: seq<Registration.UserRow>): string -> Lookup {
    (email: string) => Rows(RowsWithEmail(users, email))
  }

  function RowsWithEmail(users: seq<Registration.UserRow>, email: string): (rows: seq<Registration.UserRow>)
    ensures |rows| <= |users|
    ensures forall k :: 0 <= k < |rows| ==> rows[k].email == email && rows[k] in users
    ensures |rows| == 0 <==> !Registration.EmailInUse(users, email)
  {
    if |users| == 0 then []
    else if users[0].email == email then [users[0]] + RowsWithEmail(users[1..], email)
    else
      assert Registration.EmailInUse(users, email) <==> Registration.EmailInUse(users[1..], email) by {
        if Registration.EmailInUse(users, email) {
          var k :| 0 <= k < |users| && users[k].email == email;
          assert users[1..][k - 1] == users[k];
        }
        if Registration.EmailInUse(users[1..], email) {
          var k :| 0 <= k < |users[1..]| && users[1..][k].email == email;
          assert users[k + 1] == users[1..][k];
        }
      }
      RowsWithEmail(users[1..], email)
  }

  /** A user who has just registered can sign in with the same email and
      password, given that `compare` accepts a password against its own
      hash; the signed-in user is the one registered, and the session built
      from the sign-in carries the new id. */
  lemma {:induction false} RegisterThenSignIn(
    nome: string, email: string, senha: string,
    users: seq<Registration.UserRow>, fx: Registration.RegisterEffects,
    compare: (string, string) -> Comparison,
    token: Token, s: SessionUser, expires: string)
    requires compare(senha, fx.hash(senha)) == Matches
    requires
      var r := Registration.Register(
        Registration.Json(Registration.RegisterBody(Some(nome), Some(email), Some(senha))), users, fx);
      r.response.Registered?
    ensures
      var r := Registration.Register(
        Registration.Json(Registration.RegisterBody(Some(nome), Some(email), Some(senha))), users, fx);
      var signedIn := Authorize(Some(Credentials(Some(email), Some(senha))), LookupIn(r.users), compare);
      && signedIn == Some(AuthUser(r.response.user.id, nome, email))
      && SessionCallback(Session(Some(s), expires), JwtCallback(token, signedIn)).user.value.id
         == Some(NumId(r.response.user.id))
  {
    var r := Registration.Register(
      Registration.Json(Registration.RegisterBody(Some(nome), Some(email), Some(senha))), users, fx);
    var row := Registration.UserRow(fx.insert.id, nome, email, fx.hash(senha), fx.insert.createdAt);
    assert r.users == users + [row];
    assert !Registration.EmailInUse(users, email);
    RowsWithEmailAppend(users, row, email);
    assert RowsWithEmail(r.users, email) == [row];
  }

  lemma {:induction false} RowsWithEmailAppend(users: seq<Registration.UserRow>, row: Registration.UserRow, email: string)
    requires !Registration.EmailInUse(users, email) && row.email == email
    ensures RowsWithEmail(users + [row], email) == [row]
    decreases |users|
  {
    if |users| == 0 {
      assert users + [row] == [row];
    } else {
      assert users[0].email != email;
      assert (users + [row])[1..] == users[1..] + [row];
      forall k | 0 <= k < |users| - 1
        ensures users[1..][k].email != email
      {
        assert users[1..][k] == users[k + 1];
      }
      RowsWithEmailAppend(users[1..], row, email);
    }
  }
}
