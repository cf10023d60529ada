/** User registration (`src/app/api/auth/register/route.ts`) as a transition
    on the user table. bcrypt's `hash` and the two database statements are
    outside the model: the hash is a function parameter, the duplicate
    lookup reports only whether it failed, and the insert reports the id and
    timestamp the database assigned (or a failure). */
module Registration {
  import opened Types
  import opened EmailFormat

  /** A row of the user table; `senha` holds the password hash. */
  datatype UserRow = UserRow(id: int, nome: string, email: string, senha: string, data_criacao: string)

  /** The JSON body; `None` for a field the body does not have. */
  datatype RegisterBody = RegisterBody(nome: Option<string>, email: Option<string>, senha: Option<string>)

  /** The body as parsed: unreadable JSON, or the fields. */
  datatype RegisterRequest = Unparsable | Json(body: RegisterBody)

  /** The user echoed back on success: no password field. */
  datatype UserSummary = UserSummary(id: int, nome: string, email: string, data_criacao: string)

  datatype RegisterResponse =
    | Rejected(status: int, error: string)
    | Registered(message: string, user: UserSummary)
  {
    function Status(): int {
      if Registered? then 201 else status
    }
  }

  /** The outside steps: password hashing, whether the duplicate lookup
      failed, and the insert's outcome. */
  datatype RegisterEffects = RegisterEffects(hash: string -> string, lookupFails: bool, insert: InsertOutcome)

  datatype RegisterOutcome = RegisterOutcome(response: RegisterResponse, users: seq<UserRow>)

  const MissingFields := "Nome, email e senha são obrigatórios"
  const BadEmail := "Formato de email inválido"
  const ShortPassword := "A senha deve ter pelo menos 6 caracteres"
  const EmailTaken := "Este email já está em uso"
  const RegisterError := "Erro ao processar o registro. Tente novamente mais tarde."
  const RegisteredMessage := "Usuário registrado com sucesso"

  const MinPasswordLength := 6

  predicate EmailInUse(users: seq<UserRow>, email: string) {
    exists k :: 0 <= k < |users| && users[k].email == email
  }

  /** All three fields present and non-empty. */
  predicate FieldsPresent(b: RegisterBody) {
    Truthy(b.nome) && Truthy(b.email) && Truthy(b.senha)
  }

  /** The body passes every check that needs no database. */
  predicate Acceptable(b: RegisterBody) {
    FieldsPresent(b) && MatchesEmailRegex(b.email.value) && |b.senha.value| >= MinPasswordLength
  }

  /** `POST /api/auth/register`. */
  function Register(req: RegisterRequest, users: seq<UserRow>, fx: RegisterEffects): (r: RegisterOutcome)
    // the first failing check decides, in the order presence, format, length, duplicate
    ensures req.Json? && !FieldsPresent(req.body) ==> r.response == Rejected(400, MissingFields)
    ensures req.Json? && FieldsPresent(req.body) && !MatchesEmailRegex(req.body.email.value) ==>
              r.response == Rejected(400, BadEmail)
    ensures (req.Json? && FieldsPresent(req.body) && MatchesEmailRegex(req.body.email.value)
             && |req.body.senha.value| < MinPasswordLength) ==>
              r.response == Rejected(400, ShortPassword)
    ensures r.response.Status() == 400 <==> req.Json? && !Acceptable(req.body)
    ensures r.response.Status() == 409 <==>
              req.Json? && Acceptable(req.body) && !fx.lookupFails && EmailInUse(users, req.body.email.value)
    ensures r.response.Status() == 409 ==> r.response == Rejected(409, EmailTaken)
    ensures r.response.Status() == 500 <==>
              || req.Unparsable?
              || (Acceptable(req.body) && fx.lookupFails)
              || (Acceptable(req.body) && !EmailInUse(users, req.body.email.value) && fx.insert.InsertFailed?)
    ensures r.response.Status() == 500 ==> r.response == Rejected(500, RegisterError)
    // only a success writes, and it writes one row holding the hash
    ensures r.response.Registered? <==>
              req.Json? && Acceptable(req.body) && !fx.lookupFails
              && !EmailInUse(users, req.body.email.value) && fx.insert.Inserted?
    ensures !r.response.Registered? ==> r.users == users
    ensures r.response.Registered? ==>
              && r.users == users + [UserRow(fx.insert.id, req.body.nome.value, req.body.email.value,
                                             fx.hash(req.body.senha.value), fx.insert.createdAt)]
              && r.response == Registered(RegisteredMessage,
                                          UserSummary(fx.insert.id, req.body.nome.value,
                                                      req.body.email.value, fx.insert.createdAt))
  {
    match req
    case Unparsable => RegisterOutcome(Rejected(500, RegisterError), users)
    case Json(b) =>
      if !FieldsPresent(b) then RegisterOutcome(Rejected(400, MissingFields), users)
      else if !MatchesEmailRegex(b.email.value) then RegisterOutcome(Rejected(400, BadEmail), users)
      else if |b.senha.value| < MinPasswordLength then RegisterOutcome(Rejected(400, ShortPassword), users)
      else if fx.lookupFails then RegisterOutcome(Rejected(500, RegisterError), users)
      else if EmailInUse(users, b.email.value) then RegisterOutcome(Rejected(409, EmailTaken), users)
      else
        match fx.insert
        case InsertFailed => RegisterOutcome(Rejected(500, RegisterError), users)
        case Inserted(id, createdAt) =>
          var row := UserRow(id, b.nome.value, b.email.value, fx.hash(b.senha.value), createdAt);
          RegisterOutcome(Registered(RegisteredMessage, UserSummary(id, b.nome.value, b.email.value, createdAt)),
                          users + [row])
  }

  /** Emails are unique in the table. */
  predicate UniqueEmails(users: seq<UserRow>) {
    forall i, j :: 0 <= i < j < |users| ==> users[i].email != users[j].email
  }

  /** Registration keeps emails unique: the duplicate check guards the
      insert. */
  lemma RegisterKeepsEmailsUnique(req: RegisterRequest, users: seq<UserRow>, fx: RegisterEffects)
    requires UniqueEmails(users)
    ensures UniqueEmails(Register(req, users, fx).users)
  {
    var r := Register(req, users, fx);
    if r.response.Registered? {
      var e := req.body.email.value;
      forall i, j | 0 <= i < j < |r.users|
        ensures r.users[i].email != r.users[j].email
      {
        if j == |users| {
          assert r.users[i] == users[i];
          assert !EmailInUse(users, e);
        }
      }
    }
  }

  /** A password of exactly six characters is long enough, five is not. */
  lemma PasswordBoundary(nome: string, email: string, users: seq<UserRow>, fx: RegisterEffects)
    requires nome != "" && MatchesEmailRegex(email)
    ensures Register(Json(RegisterBody(Some(nome), Some(email), Some("123456"))), users, fx).response.Status() != 400
    ensures Register(Json(RegisterBody(Some(nome), Some(email), Some("12345"))), users, fx).response
            == Rejected(400, ShortPassword)
  {
  }
}
