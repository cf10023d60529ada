# Task manager core in Dafny

A model of the server side of a small Next.js task manager (Portuguese UI):
users register and sign in with e-mail and password, create tasks
(`tarefa`: description, creation, forecast and closing dates, a completion
flag, an owner), receive an e-mail when a task is created, and export their
tasks, optionally filtered, as a PDF. The model covers:

- `Identity` — `getUserFromRequest`. It behaves identically in the task route
  and the export route, so it is modelled once. A decoded session token yields
  the caller only when both its id and its e-mail are truthy.
- `ExportQuery` — the filtered `SELECT` of the export. The query is a list of
  numbered conditions plus its parameters, with a rendering to SQL text. The
  method `BuildQueryText` mirrors the handler's own string-and-counter
  construction and is proved to produce that rendering.
- `ExportDocument` — `generatePdfContent`, the HTML listing the tasks.
- `ExportHandler` — the export `GET`: 401 without a caller, otherwise the
  caller's statement is run, and the document is rendered and turned into a
  PDF attachment. Any failure gives a 500.
- `TaskCreation` — the task `POST`, as a transition on the task table
  followed by a best-effort notification.
- `EmailFormat` and `Registration` — the register `POST`. Its checks run in
  the order presence, e-mail format, password length, duplicate. The e-mail
  regular expression `^[^\s@]+@[^\s@]+\.[^\s@]+$` is modelled three ways:
  as its own matching predicate `MatchesEmailRegex`; as the structural
  description `WellShaped` (no whitespace, exactly one `@` that is not first,
  a dot inside the domain), which the lemma `RegexIsWellShaped` proves
  equivalent to it; and as the single-pass checker `CheckEmail`, whose
  postcondition states that it accepts exactly what the regex matches.
- `Email` — subjects, the notification template, `sendTaskNotification` and
  `sendTestEmail`.
- `Middleware` — the route guard. It lets public and static paths through,
  answers 401 on the task API without a session, and redirects every other
  session-less request to `/login`; a request with a session always passes.
- `Auth` — `authorize` and the `jwt` and `session` callbacks. A lemma links
  this module to registration: a freshly registered user can sign in.

### How the outside world is represented

Everything outside the program's own logic is a parameter:

| outside step | parameter |
|---|---|
| token decoding | a `TokenOutcome` |
| database statements | an outcome value, or a function from statement to rows |
| bcrypt `hash` and `compare` | functions |
| mail transport | a function from message to delivery |
| headless browser | a function from HTML to optional bytes |
| clock and `toLocaleString('pt-BR')` | a `Clock` value |

An option that is `None` stands for "threw".

JavaScript truthiness of optional strings is `Types.Truthy`: present and
non-empty.

### Creation-handler behaviour worth noting

- The description check at `src/app/api/tarefas/route.ts:49` tests
  `descricao` for truthiness only. Nothing trims it, so a description of
  blanks is accepted (`TaskCreation.BlankDescriptionAccepted`).
- A forecast date in the past is rejected only inside the mocked `fetch` of
  `__tests__/tarefas.test.tsx:50-58`. The handler itself
  (`src/app/api/tarefas/route.ts:56-72`) has no such check, and none is
  modelled.

## Model

| member | source | states |
|---|---|---|
| Types.OrNull | src/app/api/tarefas/route.ts:67-68 | `value \|\| null`: the result is present exactly when the input is truthy, and then equals it |
| Types.FormatDate | src/app/api/tarefas/export/route.ts:33-36 | a missing or empty date reads "Não definida"; any other date goes through the locale formatter |
| Types.StatusLabel | src/app/api/tarefas/export/route.ts:128 | the status text is "Concluída" exactly for a completed task and "Em aberto" exactly for an open one |
| Identity.UserFromRequest | src/app/api/tarefas/route.ts:9-29 | a caller exists iff the token decoded and has a truthy id and a truthy e-mail; the caller carries the token's id, name and e-mail |
| ExportQuery.BuildQuery | src/app/api/tarefas/export/route.ts:165-188 | no contract of its own; properties in ExportQuery.BuildQueryShape, ExportQuery.StepsConditions, ExportQuery.BuildQueryFilters |
| ExportQuery.Render | src/app/api/tarefas/export/route.ts:165-190 | no contract of its own; properties in ExportQuery.RenderFrame, ExportQuery.BuildQueryText |
| ExportQuery.StatusValue | src/app/api/tarefas/export/route.ts:180 | no contract of its own; properties in ExportQuery.BuildQueryFilters |
| ExportDocument.PdfContent | src/app/api/tarefas/export/route.ts:31-146 | no contract of its own; properties in ExportDocument.DocumentHeader, ExportDocument.DocumentListsEveryTask |
| Email.Template | src/lib/email.ts:43-134 | no contract of its own; properties in Email.TemplateMentions, Email.SubjectMatchesHeading |
| EmailFormat.MatchesEmailRegex | src/app/api/auth/register/route.ts:21 | no contract of its own; properties in EmailFormat.RegexIsWellShaped, EmailFormat.CheckEmail |
| Middleware.IsPublic | src/middleware.ts:25 | no contract of its own; properties in Middleware.PublicIsPrefixClosed, Middleware.Guard |
| Middleware.IsStatic | src/middleware.ts:30-37 | no contract of its own; properties in Middleware.Guard, Middleware.Examples |
| ExportQuery.BuildQueryShape | src/app/api/tarefas/export/route.ts:165-188 | the owner test on `$1` bound to the caller comes first; each present filter adds one condition and one parameter; placeholders are `$1..$n` in order; conditions keep the order owner, from, to, status, search |
| ExportQuery.StepsConditions | src/app/api/tarefas/export/route.ts:169-188 | after the four steps a condition is in the query iff it is the owner test or the step that adds it fired, bound to that step's value |
| ExportQuery.BuildQueryFilters | src/app/api/tarefas/export/route.ts:169-188 | each filter is in the query iff present (empty date or search strings count as absent, any status string counts as present), bound to the date as given, to status "true"/"1" as true and anything else as false, and to the search term wrapped in `%` |
| ExportQuery.ConnectorTexts | src/app/api/tarefas/export/route.ts:170-186 | the four rendered condition connectors are the ones the handler appends |
| ExportQuery.RenderFrame | src/app/api/tarefas/export/route.ts:165-190 | every rendered query starts with `SELECT * FROM tarefa WHERE usuario_id = $1` and ends with `ORDER BY data_criacao DESC` |
| ExportQuery.BuildQueryText | src/app/api/tarefas/export/route.ts:165-190 | the handler's string-and-counter construction yields exactly the rendering of the structured query and its parameter list |
| ExportDocument.View | src/app/api/tarefas/export/route.ts:123-135 | a task block shows the description; its badge class is `status-complete` iff the task is complete and `status-open` otherwise; the three dates are formatted, with "Não encerrada" when there is no closing date |
| ExportDocument.ItemTexts | src/app/api/tarefas/export/route.ts:123-137 | one block per task, the k-th block being the k-th task's |
| ExportDocument.DocumentHeader | src/app/api/tarefas/export/route.ts:115-120 | the header names the user and the export time; its total line shows a number that reads back as the number of tasks |
| ExportDocument.DocumentListsEveryTask | src/app/api/tarefas/export/route.ts:122-138 | every task's block occurs in the document |
| ExportDocument.ItemsSplit | src/app/api/tarefas/export/route.ts:123-137 | the task list of `a + b` is the list of `a` followed by the list of `b` |
| ExportDocument.ItemShowsTask | src/app/api/tarefas/export/route.ts:124-136 | a block contains the title, the badge matching the status, the status text and the closing line ("Não encerrada" when there is no closing date) |
| ExportDocument.BadgeAgreesWithStatus | src/app/api/tarefas/export/route.ts:127-129 | badge class and status text always agree |
| ExportHandler.ExportGet | src/app/api/tarefas/export/route.ts:149-223 | no caller: 401 and no statement issued; otherwise exactly the caller's filtered statement is issued; a PDF attachment (`application/pdf`, `tarefas.pdf`) iff the query and the renderer both succeed, with the document listing the returned rows under the caller's name; any failure after identification is a 500 with the export error |
| ExportHandler.ExportSucceeds | src/app/api/tarefas/export/route.ts:192-215 | an identified caller whose query and PDF rendering succeed gets a 200 `application/pdf` attachment named `tarefas.pdf` holding the rendered document of the returned rows |
| ExportHandler.ExportScopedToCaller | src/app/api/tarefas/export/route.ts:165-192 | the issued statement always tests the owner on `$1`, binds the caller's id to it, and orders newest first |
| ExportHandler.ExportListsRows | src/app/api/tarefas/export/route.ts:192-195 | a successful export's document shows every returned row, and its total line is their number |
| TaskCreation.NewRow | src/app/api/tarefas/route.ts:56-72 | the stored row keeps the description; falsy dates become null; the status defaults to open; the owner is the session's |
| TaskCreation.CreateTask | src/app/api/tarefas/route.ts:34-97 | 401 without a caller; 400 for a missing or empty description; 500 iff the body is unreadable or the insert fails; 201 iff all pass; on success exactly the new row is appended and returned, and one creation notice is attempted; otherwise the table is unchanged and nothing is sent |
| TaskCreation.NotificationIsBestEffort | src/app/api/tarefas/route.ts:76-89 | the response and the table do not depend on the mail transport or its settings |
| TaskCreation.BodyOwnerIgnored | src/app/api/tarefas/route.ts:60-72 | an owner id supplied in the body has no effect |
| TaskCreation.BlankDescriptionAccepted | src/app/api/tarefas/route.ts:48-54 | a description of blanks passes validation, because nothing trims it |
| TaskCreation.CreatePreservesValidStore | src/app/api/tarefas/route.ts:59-74 | given a fresh id from the database, creation keeps every description non-empty and ids distinct |
| EmailFormat.RegexIsWellShaped | src/app/api/auth/register/route.ts:21 | the regular expression matches iff the string has no whitespace, exactly one `@` that is not first, and a `.` in the domain with text on both sides |
| EmailFormat.CheckEmail | src/app/api/auth/register/route.ts:21-22 | the single-pass check accepts exactly the strings the regular expression matches |
| Registration.Register | src/app/api/auth/register/route.ts:5-80 | checks run in the order presence, format, length, duplicate; 400 iff the body fails a check that needs no database; 409 iff the e-mail is taken; 500 for an unreadable body or a failing statement; 201 iff everything passes; only success writes, appending one row that holds the hash and echoing the user without it |
| Registration.RegisterKeepsEmailsUnique | src/app/api/auth/register/route.ts:37-59 | registration keeps e-mails unique in the user table, for requests applied one after another |
| Registration.PasswordBoundary | src/app/api/auth/register/route.ts:29-35 | a six-character password is long enough and a five-character one is rejected |
| Middleware.Guard | src/middleware.ts:21-60 | the session is read iff the path is neither public nor static; the request passes iff it is public, static or has a session; 401 iff a session-less request targets the task API; every other refusal redirects to `/login` with the encoded URL |
| Middleware.PublicIsPrefixClosed | src/middleware.ts:25 | public routes match by prefix, so every extension of a public path is public |
| Middleware.PublicPassesAlways | src/middleware.ts:24-27 | a public path and its extensions pass without reading the session |
| Middleware.SessionIrrelevantWhenUnread | src/middleware.ts:24-40 | when the session is not read its value cannot change the decision |
| Middleware.Examples | src/middleware.ts:5-60 | `/login/x` and `/logo.png` pass, `/api/tarefas/7` without a session gets a 401, `/` without a session is redirected, and `/` with a session passes |
| Email.Subject | src/lib/email.ts:25-39 | every subject starts with "Sistema de Tarefas - " followed by the event's heading |
| Email.SubjectsDistinct | src/lib/email.ts:28-36 | the four event kinds have four different subjects |
| Email.Details | src/lib/email.ts:45-59 | the task block carries the description and formatted dates, shows the closing date only when there is one, and shows "Concluída" iff the task is complete |
| Email.DetailLines | src/lib/email.ts:51-59 | the closing-date line is among the block's lines when the task has a closing date; the block has one line more exactly then |
| Email.TemplateMentions | src/lib/email.ts:43-134 | the message names the event, greets the user by name, shows the description and the status line, and shows the closing-date line whenever there is a closing date |
| Email.SubjectMatchesHeading | src/lib/email.ts:25-111 | the event the subject names after its fixed prefix occurs in the message |
| Email.SendTaskNotification | src/lib/email.ts:137-168 | the message goes to the fixed address, whatever recipient is given; it has the kind's subject and the template; it has a sender iff `EMAIL_FROM` is truthy; the result is true iff the transport delivered |
| Email.NotificationIgnoresRecipient | src/lib/email.ts:144 | the recipient argument changes nothing that is sent or returned |
| Email.SendTestEmail | src/lib/email.ts:171-187 | the test message goes to the given address with `EMAIL_FROM` as it is; the subject carries "Test Email" and the body starts with the `<h1>Test Email</h1>` heading; the result is true iff delivered |
| Auth.Authorize | src/lib/auth.ts:26-50 | a user results iff both credentials are given, the lookup succeeds with a row, and the first row's hash accepts the password; the user is that row without its hash |
| Auth.AuthorizeSkipsLookup | src/lib/auth.ts:27 | without both credentials neither the database nor bcrypt is consulted |
| Auth.JwtCallback | src/lib/auth.ts:54-57 | a signing-in user's id is written to the token; otherwise the token is unchanged |
| Auth.SessionCallback | src/lib/auth.ts:58-61 | the token's id is copied into the session's user when there is one; nothing else changes |
| Auth.MaxAgeIsThirtyDays | src/lib/auth.ts:67-70 | sessions last 2592000 seconds |
| Auth.RowsWithEmail | src/lib/auth.ts:30-35 | the lookup returns only rows with that e-mail, and none exactly when the e-mail is not in use |
| Auth.RegisterThenSignIn | src/lib/auth.ts:26-59 | after a successful registration, signing in with the same e-mail and password yields the new user (when bcrypt accepts a password against its own hash), and the session built from it carries the new id |

## Left out

- Concurrency: every handler is a function from one table value to the next, so requests are applied one at a time and nothing runs between a handler's database statements.
- Registration.RegisterKeepsEmailsUnique: holds only for registrations applied one after another. The source checks for a duplicate with a `SELECT` (`src/app/api/auth/register/route.ts:38-43`) and inserts later (`:54-59`); two concurrent registrations with the same e-mail can both pass the check in that window. Whether the table then stays unique depends on a database constraint that is not part of this model (with one, the second request gets a 500 rather than a 409).
- The pages, the client code, the tests, and the routes for a single task (`[id]`). Those routes are not part of this model.
- JSON bodies whose fields have the wrong JavaScript type (a number as `senha`, say). Each field is modelled as absent or as a value of its declared type.
- TaskCreation.NewRow: a `situacao` of JSON `null` is not modelled. The source passes it to the insert as given.
- String length is counted in characters, not in UTF-16 code units, so an astral character counts once in the password length check.
- SQL is not evaluated. Statements are rendered and their results come from a parameter, so the semantics of `ILIKE` and of date comparison are outside the model. The same holds for Postgres coercing the status parameter.
- The search term's `%` and `_` are passed to `ILIKE` unescaped. The model states the wrapped value and nothing about the wildcards.
- HTML whitespace, CSS and inline styles of both documents are not reproduced. The documents are modelled as their meaningful fragments in order.
- `new Date(...)` parsing and `toLocaleString('pt-BR')` are a parameter of `Clock`. Invalid dates ("Invalid Date") are therefore whatever that parameter returns.
- The `default` branches of the e-mail subject and template are unreachable with the four event kinds, so they are not modelled.
- `new URL(request.url)` is not modelled: the filters arrive already parsed, and a malformed URL throwing into the export's 500 path is not represented.
- The framework's `matcher` configuration that selects which paths reach the guard is not modelled; the guard is modelled for every path.
- Logging (`console.log` and `console.error`), the transporter's construction from environment variables, and bcrypt's cost factor are left out.
- Identity.UserFromRequest: `name` is only cast in the source, so a missing name is carried as absent and shown as "undefined" where it is interpolated.
