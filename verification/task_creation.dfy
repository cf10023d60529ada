/** Task creation (`POST` of `src/app/api/tarefas/route.ts`) as a transition
    on the task table. The token decoding, the insert and the mail transport
    are outside the model: their outcomes are parameters. */
module TaskCreation {
  import opened Types
  import opened Identity
  import Email

  /** A creation request: its session token and its JSON body (`None` when
      the body could not be parsed). */
  datatype CreateRequest = CreateRequest(token: TokenOutcome, body: Option<TarefaInput>)

  datatype CreateResponse =
    | CreateFailed(status: int, error: string)
    | Created(task: Tarefa)
  {
    function Status(): int {
      if Created? then 201 else status
    }
  }

  /** What the notification step needs: mail settings, clock and transport. */
  datatype Notifier = Notifier(
    config: Email.MailConfig,
    clock: Clock,
    transport: Email.MailOptions -> Email.Delivery)

  /** The response, the task table afterwards, and the notification attempt
      (if one was made). */
  datatype CreateOutcome = CreateOutcome(response: CreateResponse, store: seq<Tarefa>, notified: Option<Email.Sent>)

  const NotAuthorized := "Não autorizado. Faça login para continuar."
  const DescriptionRequired := "Descrição é obrigatória"
  const CreateError := "Erro ao criar tarefa"

  /** The row the insert stores: the given description, both dates with a
      falsy value turned into `null`, the status defaulting to open, the
      owner taken from the session, and the id and creation time the
      database assigns. */
  function NewRow(body: TarefaInput, owner: UserId, id: int, createdAt: string): (t: Tarefa)
    requires body.descricao.Some?
    ensures t.descricao == body.descricao.value
    ensures t.usuario_id == owner
    ensures t.situacao <==> body.situacao == Some(true)
    ensures t.data_previsao.Some? <==> Truthy(body.data_previsao)
    ensures t.data_encerramento.Some? <==> Truthy(body.data_encerramento)
    ensures t.data_previsao.Some? ==> t.data_previsao == body.data_previsao
    ensures t.data_encerramento.Some? ==> t.data_encerramento == body.data_encerramento
  {
    var situacao := match body.situacao
      case Some(b) => b
      case None => false;
    Tarefa(id, body.descricao.value, createdAt, OrNull(body.data_previsao), OrNull(body.data_encerramento),
           situacao, owner)
  }

  /** `POST /api/tarefas`. */
  function CreateTask(req: CreateRequest, store: seq<Tarefa>, insert: InsertOutcome, n: Notifier): (r: CreateOutcome)
    // no identity: 401, nothing stored, nothing sent
    ensures UserFromRequest(req.token).None? ==>
              r == CreateOutcome(CreateFailed(401, NotAuthorized), store, None)
    // a missing or empty description: 400 (no trimming)
    ensures UserFromRequest(req.token).Some? && req.body.Some? && !Truthy(req.body.value.descricao) ==>
              r == CreateOutcome(CreateFailed(400, DescriptionRequired), store, None)
    // an unreadable body or a failed insert: 500
    ensures r.response.Status() == 500 <==>
              UserFromRequest(req.token).Some?
              && (req.body.None? || (Truthy(req.body.value.descricao) && insert.InsertFailed?))
    ensures r.response.Status() == 500 ==> r == CreateOutcome(CreateFailed(500, CreateError), store, None)
    ensures r.response.Created? <==>
              UserFromRequest(req.token).Some? && req.body.Some? && Truthy(req.body.value.descricao)
              && insert.Inserted?
    // success: exactly the new row appended and returned, owned by the caller, then notified
    ensures r.response.Created? ==>
              var user := UserFromRequest(req.token).value;
              && r.response.task == NewRow(req.body.value, user.id, insert.id, insert.createdAt)
              && r.response.task.usuario_id == user.id
              && r.store == store + [r.response.task]
              && r.notified == Some(Email.SendTaskNotification(
                   Email.TaskCreated, r.response.task, user.email, Display(user.name),
                   n.config, n.clock, n.transport))
    ensures !r.response.Created? ==> r.store == store && r.notified.None?
  {
    match UserFromRequest(req.token)
    case None => CreateOutcome(CreateFailed(401, NotAuthorized), store, None)
    case Some(user) =>
      match req.body
      case None => CreateOutcome(CreateFailed(500, CreateError), store, None)
      case Some(body) =>
        if !Truthy(body.descricao) then CreateOutcome(CreateFailed(400, DescriptionRequired), store, None)
        else
          match insert
          case InsertFailed => CreateOutcome(CreateFailed(500, CreateError), store, None)
          case Inserted(id, createdAt) =>
            var task := NewRow(body, user.id, id, createdAt);
            // the send never throws; its boolean result is not looked at
            var sent := Email.SendTaskNotification(
              Email.TaskCreated, task, user.email, Display(user.name), n.config, n.clock, n.transport);
            CreateOutcome(Created(task), store + [task], Some(sent))
  }

  /** Whatever the mail transport does, the response and the table are the
      same: the notification is best effort. */
  lemma NotificationIsBestEffort(req: CreateRequest, store: seq<Tarefa>, insert: InsertOutcome, n1: Notifier, n2: Notifier)
    ensures CreateTask(req, store, insert, n1).response == CreateTask(req, store, insert, n2).response
    ensures CreateTask(req, store, insert, n1).store == CreateTask(req, store, insert, n2).store
  {
  }

  /** An owner id in the body is ignored. */
  lemma BodyOwnerIgnored(token: TokenOutcome, body: TarefaInput, other: Option<int>,
                         store: seq<Tarefa>, insert: InsertOutcome, n: Notifier)
    ensures CreateTask(CreateRequest(token, Some(body)), store, insert, n)
         == CreateTask(CreateRequest(token, Some(body.(usuario_id := other))), store, insert, n)
  {
  }

  /** A description of blanks is accepted: nothing trims it. */
  lemma BlankDescriptionAccepted(token: TokenOutcome, store: seq<Tarefa>, id: int, createdAt: string, n: Notifier)
    requires UserFromRequest(token).Some?
    ensures CreateTask(CreateRequest(token, Some(TarefaInput(Some("   "), None, None, None, None))),
                       store, Inserted(id, createdAt), n).response.Created?
  {
  }

  /** The table invariant of the data model: every task has a description,
      and ids are distinct. */
  predicate ValidStore(store: seq<Tarefa>) {
    && (forall k :: 0 <= k < |store| ==> store[k].descricao != "")
    && (forall i, j :: 0 <= i < j < |store| ==> store[i].id != store[j].id)
  }

  /** Creation keeps the table valid, given that the database hands out a
      fresh id. */
  lemma CreatePreservesValidStore(req: CreateRequest, store: seq<Tarefa>, insert: InsertOutcome, n: Notifier)
    requires ValidStore(store)
    requires insert.Inserted? ==> forall k :: 0 <= k < |store| ==> store[k].id != insert.id
    ensures ValidStore(CreateTask(req, store, insert, n).store)
  {
    var r := CreateTask(req, store, insert, n);
    if r.response.Created? {
      var s := r.store;
      assert s == store + [r.response.task];
      forall i, j | 0 <= i < j < |s|
        ensures s[i].id != s[j].id
      {
        if j == |store| {
          assert s[i] == store[i];
        } else {
          assert s[i] == store[i] && s[j] == store[j];
        }
      }
    }
  }
}
