/** Task notifications (`src/lib/email.ts`): the subject per event kind, the
    message body, the mail options handed to the transport, and the boolean
    the senders return. The transport is outside the model: it is a function
    telling whether a given message was accepted. HTML styling and the
    template's whitespace are not reproduced; the body is modelled as its
    meaningful fragments in order. */
module Email {
  import opened Types
  import opened Strings

  datatype EmailType = TaskCreated | TaskUpdated | TaskCompleted | TaskDeleted

  /** The options passed to `sendMail`; `from` is absent when not set. */
  datatype MailOptions = MailOptions(from: Option<string>, to: string, subject: string, html: string)

  /** What the transport did with a message. */
  datatype Delivery = Delivered | Rejected

  /** The mail settings read from the environment: `EMAIL_FROM`. */
  datatype MailConfig = MailConfig(emailFrom: Option<string>)

  /** A send attempt: the message built, and the value the sender returned. */
  datatype Sent = Sent(mail: MailOptions, ok: bool)

  const BaseSubject := "Sistema de Tarefas - "

  /** Notifications always go to this address, whatever the caller asked. */
  const FixedRecipient := "gustavo.rahmeier@universo.univates.br"

  /** The event named in both the subject and the message heading. */
  function Heading(kind: EmailType): string {
    match kind
    case TaskCreated => "Nova Tarefa Criada"
    case TaskUpdated => "Tarefa Atualizada"
    case TaskCompleted => "Tarefa Concluída"
    case TaskDeleted => "Tarefa Excluída"
  }

  /** `getEmailSubject`. */
  function Subject(kind: EmailType): (s: string)
    ensures StartsWith(s, BaseSubject)
    ensures s[|BaseSubject|..] == Heading(kind)
  {
    BaseSubject + Heading(kind)
  }

  /** The four event kinds have four different subjects. */
  lemma SubjectsDistinct(a: EmailType, b: EmailType)
    ensures Subject(a) == Subject(b) <==> a == b
  {
    if a != b {
      assert |Heading(a)| != |Heading(b)|;
    }
  }

  /** The sentence introducing the task, and the closing sentence. */
  function Intro(kind: EmailType): string {
    match kind
    case TaskCreated => "Uma nova tarefa foi criada no sistema:"
    case TaskUpdated => "Uma tarefa foi atualizada no sistema:"
    case TaskCompleted => "Uma tarefa foi marcada como concluída:"
    case TaskDeleted => "Uma tarefa foi excluída do sistema:"
  }

  function Outro(kind: EmailType): string {
    match kind
    case TaskCreated => "Acesse o sistema para gerenciar suas tarefas."
    case TaskUpdated => "Acesse o sistema para verificar todas as atualizações."
    case TaskCompleted => "Parabéns por completar mais uma tarefa!"
    case TaskDeleted => "Esta tarefa foi removida permanentemente do sistema."
  }

  /** The task block of the message, before rendering. */
  datatype TaskDetails = TaskDetails(
    descricao: string,
    criacao: string,
    previsao: string,
    encerramento: Option<string>,
    situacao: string)

  /** The task block's content: every date formatted, the closing date only
      when the task has one, and the status text. */
  function Details(t: Tarefa, clock: Clock): (d: TaskDetails)
    ensures d.descricao == t.descricao
    ensures d.encerramento.Some? <==> Truthy(t.data_encerramento)
    ensures d.encerramento.Some? ==> d.encerramento.value == clock.format(t.data_encerramento.value)
    ensures d.situacao == "Concluída" <==> t.situacao
    ensures d.criacao == (if t.data_criacao == "" then NotDefined else clock.format(t.data_criacao))
    ensures !Truthy(t.data_previsao) ==> d.previsao == NotDefined
    ensures Truthy(t.data_previsao) ==> d.previsao == clock.format(t.data_previsao.value)
  {
    TaskDetails(
      t.descricao,
      FormatDate(Some(t.data_criacao), clock),
      FormatDate(t.data_previsao, clock),
      if Truthy(t.data_encerramento) then Some(FormatDate(t.data_encerramento, clock)) else None,
      StatusLabel(t.situacao))
  }

  function Paragraph(caption: string, value: string): string {
    "<p><strong>" + caption + ":</strong> " + value + "</p>"
  }

  /** The status line of the task block. */
  function SituacaoLine(situacao: bool): string {
    Paragraph("Situação", StatusLabel(situacao))
  }

  /** The task block as fragments in order; the closing-date line is one
      fragment, present only when there is a closing date. */
  function DetailFragments(d: TaskDetails): seq<string> {
    ["<div><h3>", d.descricao, "</h3>",
     Paragraph("Data de Criação", d.criacao),
     Paragraph("Data de Previsão", d.previsao)]
    + (match d.encerramento
       case Some(e) => [Paragraph("Data de Encerramento", e)]
       case None => [])
    + [Paragraph("Situação", d.situacao), "</div>"]
  }

  /** The message's fragments in order, around the already rendered pieces:
      heading, greeting, intro, task block, closing sentence, footer. */
  function Frame(heading: string, userName: string, intro: string, ds: seq<string>, outro: string, year: string)
    : seq<string>
  {
    ["<div><h2>", heading, "</h2><p>Olá ", userName, ",</p><p>", intro, "</p>"]
    + ds
    + ["<p>", outro, "</p>",
       "<div><p>Esta é uma mensagem automática. Por favor, não responda a este email.</p><p>© ",
       year,
       " Sistema de Gerenciamento de Tarefas</p></div></div>"]
  }

  function TemplateFragments(kind: EmailType, t: Tarefa, userName: string, clock: Clock): seq<string> {
    Frame(Heading(kind), userName, Intro(kind), DetailFragments(Details(t, clock)), Outro(kind),
          NatToString(clock.year))
  }

  /** `getEmailTemplate`. */
  function Template(kind: EmailType, t: Tarefa, userName: string, clock: Clock): string {
    Concat(TemplateFragments(kind, t, userName, clock))
  }

  /** The heading, the user's name and every line of the task block occur in
      the message. */
  lemma FrameShows(heading: string, userName: string, intro: string, ds: seq<string>, outro: string, year: string,
                   k: nat)
    requires k < |ds|
    ensures Contains(Concat(Frame(heading, userName, intro, ds, outro, year)), heading)
    ensures Contains(Concat(Frame(heading, userName, intro, ds, outro, year)), userName)
    ensures Contains(Concat(Frame(heading, userName, intro, ds, outro, year)), ds[k])
  {
    var fs := Frame(heading, userName, intro, ds, outro, year);
    ConcatContains(fs, 1);
    ConcatContains(fs, 3);
    assert fs[7 + k] == ds[k];
    ConcatContains(fs, 7 + k);
  }

  /** Where the task block keeps its title, its closing-date line and its
      status line. */
  lemma DetailPositions(d: TaskDetails)
    ensures |DetailFragments(d)| >= 7
    ensures DetailFragments(d)[1] == d.descricao
    ensures DetailFragments(d)[|DetailFragments(d)| - 2] == Paragraph("Situação", d.situacao)
    ensures d.encerramento.Some? ==> DetailFragments(d)[5] == Paragraph("Data de Encerramento", d.encerramento.value)
  {
  }

  /** The message names the event, greets the user by name, shows the task's
      description and its status line, and shows the closing-date line
      whenever the task has a closing date. */
  lemma TemplateMentions(kind: EmailType, t: Tarefa, userName: string, clock: Clock)
    ensures Contains(Template(kind, t, userName, clock), Heading(kind))
    ensures Contains(Template(kind, t, userName, clock), userName)
    ensures Contains(Template(kind, t, userName, clock), t.descricao)
    ensures Contains(Template(kind, t, userName, clock), SituacaoLine(t.situacao))
    ensures Truthy(t.data_encerramento) ==>
      Contains(Template(kind, t, userName, clock),
               Paragraph("Data de Encerramento", clock.format(t.data_encerramento.value)))
  {
    var d := Details(t, clock);
    var ds := DetailFragments(d);
    var year := NatToString(clock.year);
    DetailPositions(d);
    FrameShows(Heading(kind), userName, Intro(kind), ds, Outro(kind), year, 1);
    FrameShows(Heading(kind), userName, Intro(kind), ds, Outro(kind), year, |ds| - 2);
    if Truthy(t.data_encerramento) {
      FrameShows(Heading(kind), userName, Intro(kind), ds, Outro(kind), year, 5);
    }
  }

  /** The closing-date line is among the task block's lines when the task
      has a closing date (and the block is one line longer exactly then), and the status line names "Concluída" exactly
      when the task is complete. */
  lemma DetailLines(t: Tarefa, clock: Clock)
    ensures (exists k :: 0 <= k < |DetailFragments(Details(t, clock))|
                        && DetailFragments(Details(t, clock))[k]
                           == Paragraph("Data de Encerramento", clock.format(t.data_encerramento.value)))
            <== Truthy(t.data_encerramento)
    ensures |DetailFragments(Details(t, clock))| == (if Truthy(t.data_encerramento) then 8 else 7)
    ensures Details(t, clock).situacao == "Concluída" <==> t.situacao
  {
    if Truthy(t.data_encerramento) {
      assert DetailFragments(Details(t, clock))[5]
          == Paragraph("Data de Encerramento", clock.format(t.data_encerramento.value));
    }
  }

  /** Subject and message heading name the same event. */
  lemma SubjectMatchesHeading(kind: EmailType, t: Tarefa, userName: string, clock: Clock)
    ensures Contains(Template(kind, t, userName, clock), Subject(kind)[|BaseSubject|..])
  {
    TemplateMentions(kind, t, userName, clock);
  }

  /** `sendTaskNotification`: the message goes to the fixed recipient (the
      `userEmail` argument is overwritten), carries the kind's subject and
      the template, has a `from` only when one is configured, and the result
      is true exactly when the transport accepted it. Nothing is thrown. */
  function SendTaskNotification(
    kind: EmailType, t: Tarefa, userEmail: string, userName: string,
    config: MailConfig, clock: Clock, transport: MailOptions -> Delivery): (r: Sent)
    ensures r.mail.to == FixedRecipient
    ensures r.mail.subject == Subject(kind)
    ensures r.mail.html == Template(kind, t, userName, clock)
    ensures r.mail.from.Some? <==> Truthy(config.emailFrom)
    ensures r.mail.from.Some? ==> r.mail.from == config.emailFrom
    ensures r.ok <==> transport(r.mail) == Delivered
  {
    var mail := MailOptions(
      if Truthy(config.emailFrom) then config.emailFrom else None,
      FixedRecipient,
      Subject(kind),
      Template(kind, t, userName, clock));
    Sent(mail, transport(mail) == Delivered)
  }

  /** The recipient argument has no effect on what is sent or returned. */
  lemma NotificationIgnoresRecipient(
    kind: EmailType, t: Tarefa, e1: string, e2: string, userName: string,
    config: MailConfig, clock: Clock, transport: MailOptions -> Delivery)
    ensures SendTaskNotification(kind, t, e1, userName, config, clock, transport)
         == SendTaskNotification(kind, t, e2, userName, config, clock, transport)
  {
  }

  const TestSubject := "Test Email" + " from Task Management System"
  const TestHtml := "<h1>Test Email</h1>" + "<p>This is a test email from the Task Management System.</p>"

  /** `sendTestEmail`: `to` is passed through, `from` is the configured value
      as it is (even when unset or empty), the subject mentions "Test Email",
      the body starts with the `<h1>Test Email</h1>` heading, and the result
      is true exactly when the transport accepted the message. */
  function SendTestEmail(to: string, config: MailConfig, transport: MailOptions -> Delivery): (r: Sent)
    ensures r.mail.to == to
    ensures r.mail.from == config.emailFrom
    ensures Contains(r.mail.subject, "Test Email")
    ensures Contains(r.mail.html, "<h1>Test Email</h1>")
    ensures StartsWith(r.mail.html, "<h1>Test Email</h1>")
    ensures r.ok <==> transport(r.mail) == Delivered
  {
    ContainsMiddle("", "Test Email", " from Task Management System");
    assert "" + "Test Email" + " from Task Management System" == TestSubject;
    ContainsMiddle("", "<h1>Test Email</h1>", "<p>This is a test email from the Task Management System.</p>");
    assert "" + "<h1>Test Email</h1>" + "<p>This is a test email from the Task Management System.</p>" == TestHtml;
    StartsWithAppend("<h1>Test Email</h1>", "<h1>Test Email</h1>",
                     "<p>This is a test email from the Task Management System.</p>");
    var mail := MailOptions(config.emailFrom, to, TestSubject, TestHtml);
    Sent(mail, transport(mail) == Delivered)
  }
}
