/** The records of `src/types/tarefa.ts`, and the small pieces of JavaScript
    value semantics the handlers rely on (truthiness, interpolating a value
    that may be `undefined`, `formatDate`). */
module Types {

  datatype Option<+T> = None | Some(value: T)

  /** A session's user id: the token claim is a number or a string. */
  datatype UserId = NumId(n: int) | StrId(s: string)

  /** A task row as the store returns it. */
  datatype Tarefa = Tarefa(
    id: int,
    descricao: string,
    data_criacao: string,
    data_previsao: Option<string>,
    data_encerramento: Option<string>,
    situacao: bool,
    usuario_id: UserId)

  /** The body of a task-creation request; every field may be absent. */
  datatype TarefaInput = TarefaInput(
    descricao: Option<string>,
    data_previsao: Option<string>,
    data_encerramento: Option<string>,
    situacao: Option<bool>,
    usuario_id: Option<int>)

  /** The identity a request handler works with; `name` is whatever the
      token carried, possibly nothing (the source only casts it). */
  datatype UserSession = UserSession(id: UserId, name: Option<string>, email: string)

  /** The export filters as read from the query string: each parameter is
      absent (`null`) or a string. */
  datatype TaskFilterOptions = TaskFilterOptions(
    dateFrom: Option<string>,
    dateTo: Option<string>,
    status: Option<string>,
    searchTerm: Option<string>)

  /** What an `INSERT ... RETURNING` statement gives back: a failure, or the
      id and creation timestamp the database assigned. */
  datatype InsertOutcome = InsertFailed | Inserted(id: int, createdAt: string)

  /** The clock and locale the documents read: `toLocaleString('pt-BR')` of a
      date string, the current time already formatted, and the current year. */
  datatype Clock = Clock(format: string -> string, now: string, year: nat)

  /** JavaScript truthiness of an optional string: absent, `null` and `""`
      are falsy. */
  predicate Truthy(s: Option<string>) {
    s.Some? && s.value != ""
  }

  /** JavaScript truthiness of an id claim (`0` and `""` are falsy). */
  predicate IdTruthy(id: Option<UserId>) {
    match id
    case None => false
    case Some(NumId(n)) => n != 0
    case Some(StrId(s)) => s != ""
  }

  /** `value || null` on an optional string. */
  function OrNull(s: Option<string>): (r: Option<string>)
    ensures r.Some? <==> Truthy(s)
    ensures r.Some? ==> r == s
  {
    if Truthy(s) then s else None
  }

  /** A possibly-undefined string interpolated into a template literal. */
  function Display(s: Option<string>): string {
    match s
    case Some(v) => v
    case None => "undefined"
  }

  const NotDefined := "Não definida"

  /** `formatDate` of the export document and of the notification template:
      a missing or empty date reads "Não definida", any other goes through
      the locale formatter. */
  function FormatDate(d: Option<string>, clock: Clock): (r: string)
    ensures !Truthy(d) ==> r == NotDefined
    ensures Truthy(d) ==> r == clock.format(d.value)
  {
    if Truthy(d) then clock.format(d.value) else NotDefined
  }

  /** The status text both documents show for a task. */
  function StatusLabel(situacao: bool): (r: string)
    ensures r == "Concluída" <==> situacao
    ensures r == "Em aberto" <==> !situacao
  {
    if situacao then "Concluída" else "Em aberto"
  }
}
