/** The PDF export endpoint (`GET` of `src/app/api/tarefas/export/route.ts`):
    identify the caller, run the filtered query, render the task list as an
    HTML document and render that as a PDF. The database and the headless browser
    are outside the model: each is a function parameter that returns
    nothing when it throws. */
module ExportHandler {
  import opened Types
  import opened Strings
  import opened Identity
  import opened ExportQuery
  import opened ExportDocument

  /** A statement sent to the database: SQL text and parameter values. */
  datatype Statement = Statement(text: string, params: seq<Param>)

  /** The outside steps: running a statement, and turning HTML into a PDF. */
  datatype ExportEffects = ExportEffects(
    run: Statement -> Option<seq<Tarefa>>,
    toPdf: string -> Option<seq<bv8>>)

  datatype ExportResponse =
    | ExportFailed(status: int, error: string)
    | Pdf(body: seq<bv8>, contentType: string, disposition: string)
  {
    function Status(): int {
      if Pdf? then 200 else status
    }
  }

  /** The response, the statement issued (if any), and the document
      rendered (if any). */
  datatype ExportOutcome = ExportOutcome(response: ExportResponse, issued: Option<Statement>, html: Option<string>)

  const NotAuthorized := "Não autorizado. Faça login para continuar."
  const ExportError := "Erro ao gerar PDF de tarefas"
  const PdfType := "application/pdf"
  const Attachment := "attachment; filename=\"tarefas.pdf\""

  /** The statement for caller `user` and filters `f`. */
  function ExportStatement(user: UserId, f: TaskFilterOptions): Statement {
    Statement(Render(BuildQuery(user, f)), BuildQuery(user, f).params)
  }

  /** `GET /api/tarefas/export`. */
  function ExportGet(token: TokenOutcome, f: TaskFilterOptions, fx: ExportEffects, clock: Clock): (r: ExportOutcome)
    // no identity: 401 and the database is never asked
    ensures UserFromRequest(token).None? ==>
              r == ExportOutcome(ExportFailed(401, NotAuthorized), None, None)
    // otherwise exactly the caller's filtered statement is issued
    ensures UserFromRequest(token).Some? ==>
              r.issued == Some(ExportStatement(UserFromRequest(token).value.id, f))
    ensures r.response.Pdf? <==>
              && UserFromRequest(token).Some?
              && fx.run(r.issued.value).Some?
              && r.html.Some?
              && fx.toPdf(r.html.value).Some?
    // a successful query always has its document rendered
    ensures UserFromRequest(token).Some? && fx.run(r.issued.value).Some? ==> r.html.Some?
    // the document lists the rows returned, under the caller's name
    ensures r.html.Some? ==>
              && UserFromRequest(token).Some?
              && fx.run(r.issued.value).Some?
              && r.html.value == PdfContent(fx.run(r.issued.value).value,
                                            Display(UserFromRequest(token).value.name), clock)
    ensures r.response.Pdf? ==>
              r.response == Pdf(fx.toPdf(r.html.value).value, PdfType, Attachment)
    // a failing query or PDF renderer: 500
    ensures r.response.Status() == 500 <==> UserFromRequest(token).Some? && !r.response.Pdf?
    ensures r.response.Status() == 500 ==> r.response == ExportFailed(500, ExportError)
  {
    match UserFromRequest(token)
    case None => ExportOutcome(ExportFailed(401, NotAuthorized), None, None)
    case Some(user) =>
      var stmt := ExportStatement(user.id, f);
      match fx.run(stmt)
      case None => ExportOutcome(ExportFailed(500, ExportError), Some(stmt), None)
      case Some(tasks) =>
        var html := PdfContent(tasks, Display(user.name), clock);
        match fx.toPdf(html)
        case None => ExportOutcome(ExportFailed(500, ExportError), Some(stmt), Some(html))
        case Some(pdf) => ExportOutcome(Pdf(pdf, PdfType, Attachment), Some(stmt), Some(html))
  }

  /** An identified caller whose query and PDF rendering both succeed gets
      the PDF attachment of the document listing the returned rows. */
  lemma ExportSucceeds(token: TokenOutcome, f: TaskFilterOptions, fx: ExportEffects, clock: Clock)
    requires UserFromRequest(token).Some?
    requires fx.run(ExportStatement(UserFromRequest(token).value.id, f)).Some?
    requires
      var tasks := fx.run(ExportStatement(UserFromRequest(token).value.id, f)).value;
      fx.toPdf(PdfContent(tasks, Display(UserFromRequest(token).value.name), clock)).Some?
    ensures
      var tasks := fx.run(ExportStatement(UserFromRequest(token).value.id, f)).value;
      var html := PdfContent(tasks, Display(UserFromRequest(token).value.name), clock);
      ExportGet(token, f, fx, clock).response == Pdf(fx.toPdf(html).value, PdfType, Attachment)
  {
  }

  /** The statement issued is always scoped to the caller: the first
      condition is the owner test on `$1`, bound to the caller's id, and the
      results come newest first. */
  lemma ExportScopedToCaller(token: TokenOutcome, f: TaskFilterOptions, fx: ExportEffects, clock: Clock)
    requires UserFromRequest(token).Some?
    ensures
      var s := ExportGet(token, f, fx, clock).issued.value;
      && StartsWith(s.text, "SELECT * FROM tarefa WHERE usuario_id = $1")
      && EndsWith(s.text, OrderBy)
      && |s.params| > 0
      && s.params[0] == UserParam(UserFromRequest(token).value.id)
  {
    var user := UserFromRequest(token).value;
    RenderFrame(user.id, f);
    BuildQueryShape(user.id, f);
  }

  /** A successful export's document shows every task the query returned,
      and its total line reads back as their number. */
  lemma ExportListsRows(token: TokenOutcome, f: TaskFilterOptions, fx: ExportEffects, clock: Clock, k: nat)
    requires ExportGet(token, f, fx, clock).response.Pdf?
    ensures
      var r := ExportGet(token, f, fx, clock);
      var tasks := fx.run(r.issued.value).value;
      && (k < |tasks| ==> Contains(r.html.value, Item(tasks[k], clock)))
      && Contains(r.html.value, HeaderLine("Total de Tarefas", NatToString(|tasks|)))
      && ParseDigits(NatToString(|tasks|)) == |tasks|
  {
    var r := ExportGet(token, f, fx, clock);
    var tasks := fx.run(r.issued.value).value;
    var name := Display(UserFromRequest(token).value.name);
    DocumentHeader(tasks, name, clock);
    if k < |tasks| {
      DocumentListsEveryTask(tasks, name, clock, k);
    }
  }
}
