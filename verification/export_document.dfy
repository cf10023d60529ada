/** The HTML document the PDF export renders (`generatePdfContent` of
    `src/app/api/tarefas/export/route.ts`): a header naming the user, the
    export time and the number of tasks, one block per task in the order the
    query returned them, and a footer with the current year. The document is
    a list of fragments joined in order; the style sheet and the template's
    indentation are not reproduced. */
module ExportDocument {
  import opened Types
  import opened Strings

  /** What one task block shows: its title, the CSS class and text of its
      status badge, and its three dates as displayed. */
  datatype ItemView = ItemView(
    descricao: string,
    statusClass: string,
    status: string,
    criacao: string,
    previsao: string,
    encerramento: string)

  const CompleteClass := "status-complete"
  const OpenClass := "status-open"
  const NotClosed := "Não encerrada"

  /** How the block shows task `t`: the badge is green for a completed task
      and amber otherwise; creation and forecast dates go through
      `formatDate` (an empty date reads "Não definida"); a task without a
      closing date reads "Não encerrada" instead. */
  function View(t: Tarefa, clock: Clock): (v: ItemView)
    ensures v.descricao == t.descricao
    ensures v.statusClass == CompleteClass <==> t.situacao
    ensures v.statusClass == OpenClass <==> !t.situacao
    ensures v.status == "Concluída" <==> t.situacao
    ensures v.status == "Em aberto" <==> !t.situacao
    ensures t.data_criacao == "" ==> v.criacao == NotDefined
    ensures t.data_criacao != "" ==> v.criacao == clock.format(t.data_criacao)
    ensures !Truthy(t.data_previsao) ==> v.previsao == NotDefined
    ensures Truthy(t.data_previsao) ==> v.previsao == clock.format(t.data_previsao.value)
    ensures !Truthy(t.data_encerramento) ==> v.encerramento == NotClosed
    ensures Truthy(t.data_encerramento) ==> v.encerramento == clock.format(t.data_encerramento.value)
  {
    ItemView(
      t.descricao,
      if t.situacao then CompleteClass else OpenClass,
      StatusLabel(t.situacao),
      FormatDate(Some(t.data_criacao), clock),
      FormatDate(t.data_previsao, clock),
      if Truthy(t.data_encerramento) then FormatDate(t.data_encerramento, clock) else NotClosed)
  }

  /** The opening tag of the status badge. */
  function Badge(statusClass: string): string {
    "<span class=\"task-status " + statusClass + "\">"
  }

  /** One labelled date line of a task block. */
  function DetailLine(caption: string, value: string): string {
    "<p><span class=\"detail-label\">" + caption + ":</span> " + value + "</p>"
  }

  /** A task block as fragments in order. */
  function ItemFragments(v: ItemView): seq<string> {
    ["<div class=\"task-item\"><div class=\"task-header\"><h3 class=\"task-title\">",
     v.descricao,
     "</h3>",
     Badge(v.statusClass),
     v.status,
     "</span></div><div class=\"task-details\">",
     DetailLine("Criação", v.criacao),
     DetailLine("Previsão", v.previsao),
     DetailLine("Encerramento", v.encerramento),
     "</div></div>"]
  }

  /** The block of task `t`. */
  function Item(t: Tarefa, clock: Clock): string {
    Concat(ItemFragments(View(t, clock)))
  }

  /** `tasks.map(...)`: one block per task, in order. */
  function ItemTexts(tasks: seq<Tarefa>, clock: Clock): (r: seq<string>)
    ensures |r| == |tasks|
    ensures forall k :: 0 <= k < |tasks| ==> r[k] == Item(tasks[k], clock)
  {
    if |tasks| == 0 then [] else [Item(tasks[0], clock)] + ItemTexts(tasks[1..], clock)
  }

  /** A labelled line of the header. */
  function HeaderLine(caption: string, value: string): string {
    "<p>" + caption + ": " + value + "</p>"
  }

  const DocumentHead :=
    "<!DOCTYPE html><html><head><meta charset=\"UTF-8\"><title>Lista de Tarefas</title></head>"
    + "<body><h1>Lista de Tarefas</h1><div class=\"header-info\">"

  /** The document's fragments in order, around the already rendered
      pieces: title, the three header lines, the task list, the footer. */
  function Layout(userName: string, now: string, total: string, list: string, year: string): seq<string> {
    [DocumentHead,
     HeaderLine("Usuário", userName),
     HeaderLine("Data de Exportação", now),
     HeaderLine("Total de Tarefas", total),
     "</div><div class=\"task-list\">",
     list,
     "</div><div class=\"footer\"><p>© ",
     year,
     " Sistema de Gerenciamento de Tarefas</p></div></body></html>"]
  }

  /** `generatePdfContent(tasks, userName)`. */
  function PdfContent(tasks: seq<Tarefa>, userName: string, clock: Clock): string {
    Concat(Layout(userName, clock.now, NatToString(|tasks|), Concat(ItemTexts(tasks, clock)), NatToString(clock.year)))
  }

  /** Each piece placed in the layout occurs in the document. */
  lemma LayoutShows(userName: string, now: string, total: string, list: string, year: string)
    ensures Contains(Concat(Layout(userName, now, total, list, year)), HeaderLine("Usuário", userName))
    ensures Contains(Concat(Layout(userName, now, total, list, year)), HeaderLine("Data de Exportação", now))
    ensures Contains(Concat(Layout(userName, now, total, list, year)), HeaderLine("Total de Tarefas", total))
    ensures Contains(Concat(Layout(userName, now, total, list, year)), list)
  {
    var fs := Layout(userName, now, total, list, year);
    ConcatContains(fs, 1);
    ConcatContains(fs, 2);
    ConcatContains(fs, 3);
    ConcatContains(fs, 5);
  }

  /** The header names the user and the export time, and its total line
      shows a number that reads back as the number of tasks. */
  lemma DocumentHeader(tasks: seq<Tarefa>, userName: string, clock: Clock)
    ensures Contains(PdfContent(tasks, userName, clock), HeaderLine("Usuário", userName))
    ensures Contains(PdfContent(tasks, userName, clock), HeaderLine("Data de Exportação", clock.now))
    ensures Contains(PdfContent(tasks, userName, clock), HeaderLine("Total de Tarefas", NatToString(|tasks|)))
    ensures ParseDigits(NatToString(|tasks|)) == |tasks|
  {
    LayoutShows(userName, clock.now, NatToString(|tasks|), Concat(ItemTexts(tasks, clock)), NatToString(clock.year));
    ParseNatToString(|tasks|);
  }

  /** Every task has its block in the document. */
  lemma {:induction false} DocumentListsEveryTask(tasks: seq<Tarefa>, userName: string, clock: Clock, k: nat)
    requires k < |tasks|
    ensures Contains(PdfContent(tasks, userName, clock), Item(tasks[k], clock))
  {
    var items := ItemTexts(tasks, clock);
    ConcatContains(items, k);
    LayoutShows(userName, clock.now, NatToString(|tasks|), Concat(items), NatToString(clock.year));
    ContainsTrans(PdfContent(tasks, userName, clock), Concat(items), Item(tasks[k], clock));
  }

  /** The task list is the blocks of the tasks in order: listing `a` then
      `b` gives the text of `a`'s list followed by `b`'s. */
  lemma {:induction false} ItemsSplit(a: seq<Tarefa>, b: seq<Tarefa>, clock: Clock)
    ensures Concat(ItemTexts(a + b, clock)) == Concat(ItemTexts(a, clock)) + Concat(ItemTexts(b, clock))
  {
    var ab := ItemTexts(a + b, clock);
    var both := ItemTexts(a, clock) + ItemTexts(b, clock);
    forall k | 0 <= k < |ab|
      ensures ab[k] == both[k]
    {
      if k < |a| {
        assert (a + b)[k] == a[k];
      } else {
        assert (a + b)[k] == b[k - |a|];
      }
    }
    assert ab == both;
    ConcatAppend(ItemTexts(a, clock), ItemTexts(b, clock));
  }

  /** A task block shows the title, the badge matching the status, the
      status text, and the closing line ("Não encerrada" for a task without
      a closing date). */
  lemma ItemShowsTask(t: Tarefa, clock: Clock)
    ensures Contains(Item(t, clock), t.descricao)
    ensures Contains(Item(t, clock), Badge(if t.situacao then CompleteClass else OpenClass))
    ensures Contains(Item(t, clock), StatusLabel(t.situacao))
    ensures !Truthy(t.data_encerramento) ==> Contains(Item(t, clock), DetailLine("Encerramento", NotClosed))
    ensures Truthy(t.data_encerramento) ==>
      Contains(Item(t, clock), DetailLine("Encerramento", clock.format(t.data_encerramento.value)))
  {
    var fs := ItemFragments(View(t, clock));
    ConcatContains(fs, 1);
    ConcatContains(fs, 3);
    ConcatContains(fs, 4);
    ConcatContains(fs, 8);
  }

  /** The badge class and the status text always agree. */
  lemma BadgeAgreesWithStatus(t: Tarefa, clock: Clock)
    ensures View(t, clock).statusClass == CompleteClass <==> View(t, clock).status == "Concluída"
    ensures View(t, clock).statusClass == OpenClass <==> View(t, clock).status == "Em aberto"
  {
  }
}
