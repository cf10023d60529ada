/** The filtered task query of the PDF export (`GET` of
    `src/app/api/tarefas/export/route.ts`): the optional filters become one
    parameterised `SELECT`, here a list of numbered conditions with their
    parameters plus the text rendered from it. The SQL itself is not
    evaluated. */
module ExportQuery {
  import opened Types
  import opened Strings

  datatype Column = UsuarioId | DataCriacao | Situacao | Descricao
  datatype Op = Equals | AtLeast | AtMost | ILike

  /** A value bound to a placeholder. */
  datatype Param = UserParam(id: UserId) | TextParam(text: string) | BoolParam(flag: bool)

  /** `column op $placeholder`. */
  datatype Clause = Clause(column: Column, op: Op, placeholder: nat)

  /** The conditions (all ANDed, the first one being the owner test) and the
      parameter list, position `i` holding the value of placeholder `i + 1`. */
  datatype Query = Query(clauses: seq<Clause>, params: seq<Param>)

  /** The position a condition takes in the fixed order of the source:
      owner, from, to, status, search. */
  function Rank(column: Column, op: Op): nat {
    match (column, op)
    case (UsuarioId, Equals) => 0
    case (DataCriacao, AtLeast) => 1
    case (DataCriacao, AtMost) => 2
    case (Situacao, Equals) => 3
    case (Descricao, ILike) => 4
    case _ => 5
  }

  /** The status filter is true only for "true" and "1". */
  function StatusValue(status: string): bool {
    status == "true" || status == "1"
  }

  /** One more condition, on the next placeholder. */
  function Add(q: Query, column: Column, op: Op, p: Param): Query {
    Query(q.clauses + [Clause(column, op, |q.params| + 1)], q.params + [p])
  }

  /** The owner test alone: `usuario_id = $1` bound to the caller. */
  function OwnerOnly(user: UserId): Query {
    Query([Clause(UsuarioId, Equals, 1)], [UserParam(user)])
  }

  /** The four filter steps, in the source's order. Empty date and search
      strings count as absent; any status string, even empty, is present. */
  function WithDateFrom(q: Query, f: TaskFilterOptions): Query {
    if Truthy(f.dateFrom) then Add(q, DataCriacao, AtLeast, TextParam(f.dateFrom.value)) else q
  }

  function WithDateTo(q: Query, f: TaskFilterOptions): Query {
    if Truthy(f.dateTo) then Add(q, DataCriacao, AtMost, TextParam(f.dateTo.value)) else q
  }

  function WithStatus(q: Query, f: TaskFilterOptions): Query {
    if f.status.Some? then Add(q, Situacao, Equals, BoolParam(StatusValue(f.status.value))) else q
  }

  function WithSearch(q: Query, f: TaskFilterOptions): Query {
    if Truthy(f.searchTerm) then Add(q, Descricao, ILike, TextParam("%" + f.searchTerm.value + "%")) else q
  }

  /** The query for caller `user` and filters `f`. */
  function BuildQuery(user: UserId, f: TaskFilterOptions): Query {
    WithSearch(WithStatus(WithDateTo(WithDateFrom(OwnerOnly(user), f), f), f), f)
  }

  /** The number of filters that add a condition. */
  function PresentCount(f: TaskFilterOptions): nat {
    (if Truthy(f.dateFrom) then 1 else 0) + (if Truthy(f.dateTo) then 1 else 0)
    + (if f.status.Some? then 1 else 0) + (if Truthy(f.searchTerm) then 1 else 0)
  }

  /** Placeholders are `$1..$n` in order, one per parameter. */
  predicate WellNumbered(q: Query) {
    && |q.clauses| == |q.params|
    && forall k :: 0 <= k < |q.clauses| ==> q.clauses[k].placeholder == k + 1
  }

  /** Conditions appear in the fixed order, each at most once. */
  predicate InOrder(q: Query) {
    forall i, j :: 0 <= i < j < |q.clauses| ==>
      Rank(q.clauses[i].column, q.clauses[i].op) < Rank(q.clauses[j].column, q.clauses[j].op)
  }

  /** The condition on `column` with `op` is in the query, bound to `p`. */
  predicate HasCondition(q: Query, column: Column, op: Op, p: Param) {
    exists k :: 0 <= k < |q.clauses| && k < |q.params|
      && q.clauses[k].column == column && q.clauses[k].op == op && q.params[k] == p
  }

  predicate HasColumnOp(q: Query, column: Column, op: Op) {
    exists k :: 0 <= k < |q.clauses| && q.clauses[k].column == column && q.clauses[k].op == op
  }

  function Last(q: Query): Clause
    requires |q.clauses| > 0
  {
    q.clauses[|q.clauses| - 1]
  }

  /** The shape every intermediate query keeps: well numbered, the owner
      test first, conditions in order and none ranked above `top`. */
  predicate Shaped(q: Query, user: UserId, top: nat) {
    && WellNumbered(q)
    && |q.clauses| > 0
    && q.clauses[0] == Clause(UsuarioId, Equals, 1)
    && q.params[0] == UserParam(user)
    && InOrder(q)
    && Rank(Last(q).column, Last(q).op) <= top
  }

  /** Appending a condition ranked above every present one keeps the shape
      and moves the top rank up. */
  lemma AddShaped(q: Query, user: UserId, top: nat, column: Column, op: Op, p: Param)
    requires Shaped(q, user, top) && top < Rank(column, op)
    ensures Shaped(Add(q, column, op, p), user, Rank(column, op))
    ensures |Add(q, column, op, p).params| == |q.params| + 1
  {
    var r := Add(q, column, op, p);
    var n := |q.clauses|;
    assert r.clauses[n] == Clause(column, op, n + 1);
    forall i, j | 0 <= i < j < |r.clauses|
      ensures Rank(r.clauses[i].column, r.clauses[i].op) < Rank(r.clauses[j].column, r.clauses[j].op)
    {
      if j < n {
        assert r.clauses[i] == q.clauses[i] && r.clauses[j] == q.clauses[j];
      } else if i < n - 1 {
        assert r.clauses[i] == q.clauses[i] && Last(q) == q.clauses[n - 1];
      }
    }
  }

  /** Appending adds the new condition and no other. */
  lemma AddColumnOps(q: Query, column: Column, op: Op, p: Param, c: Column, o: Op)
    ensures HasColumnOp(Add(q, column, op, p), c, o) <==> HasColumnOp(q, c, o) || (c == column && o == op)
  {
    var r := Add(q, column, op, p);
    var n := |q.clauses|;
    assert r.clauses[n] == Clause(column, op, |q.params| + 1);
    if HasColumnOp(q, c, o) {
      var k :| 0 <= k < |q.clauses| && q.clauses[k].column == c && q.clauses[k].op == o;
      assert r.clauses[k] == q.clauses[k];
    }
    if HasColumnOp(r, c, o) {
      var k :| 0 <= k < |r.clauses| && r.clauses[k].column == c && r.clauses[k].op == o;
      if k < n {
        assert r.clauses[k] == q.clauses[k];
      }
    }
  }

  /** Appending keeps every bound condition already there and binds the new
      one to its parameter. */
  lemma AddConditions(q: Query, column: Column, op: Op, p: Param, c: Column, o: Op, v: Param)
    requires |q.clauses| == |q.params|
    ensures HasCondition(q, c, o, v) ==> HasCondition(Add(q, column, op, p), c, o, v)
    ensures HasCondition(Add(q, column, op, p), column, op, p)
  {
    var r := Add(q, column, op, p);
    var n := |q.clauses|;
    assert r.clauses[n] == Clause(column, op, n + 1) && r.params[n] == p;
    if HasCondition(q, c, o, v) {
      var k :| 0 <= k < |q.clauses| && k < |q.params|
        && q.clauses[k].column == c && q.clauses[k].op == o && q.params[k] == v;
      assert r.clauses[k] == q.clauses[k] && r.params[k] == q.params[k];
    }
  }

  /** The query is scoped to the caller and well numbered: the owner test
      comes first with the caller's id as parameter 0, each present filter
      adds exactly one condition and one parameter, the highest placeholder
      equals the number of parameters, and conditions keep the fixed order
      owner, from, to, status, search (so none appears twice). */
  lemma {:induction false} BuildQueryShape(user: UserId, f: TaskFilterOptions)
    ensures WellNumbered(BuildQuery(user, f))
    ensures BuildQuery(user, f).clauses[0] == Clause(UsuarioId, Equals, 1)
    ensures BuildQuery(user, f).params[0] == UserParam(user)
    ensures |BuildQuery(user, f).params| == 1 + PresentCount(f)
    ensures Last(BuildQuery(user, f)).placeholder == |BuildQuery(user, f).params|
    ensures InOrder(BuildQuery(user, f))
  {
    BuildQueryShaped(user, f);
  }

  /** The four steps, one after another, from the owner test. */
  lemma {:induction false} BuildQueryShaped(user: UserId, f: TaskFilterOptions)
    ensures Shaped(BuildQuery(user, f), user, 4)
    ensures |BuildQuery(user, f).params| == 1 + PresentCount(f)
  {
    var q0 := OwnerOnly(user);
    var q1 := WithDateFrom(q0, f);
    var q2 := WithDateTo(q1, f);
    var q3 := WithStatus(q2, f);
    DateFromShaped(q0, user, f);
    DateToShaped(q1, user, f);
    StatusShaped(q2, user, f);
    SearchShaped(q3, user, f);
    ParamCount(q0, f);
  }

  lemma DateFromShaped(q: Query, user: UserId, f: TaskFilterOptions)
    requires Shaped(q, user, 0)
    ensures Shaped(WithDateFrom(q, f), user, 1)
  {
    if Truthy(f.dateFrom) { AddShaped(q, user, 0, DataCriacao, AtLeast, TextParam(f.dateFrom.value)); }
  }

  lemma DateToShaped(q: Query, user: UserId, f: TaskFilterOptions)
    requires Shaped(q, user, 1)
    ensures Shaped(WithDateTo(q, f), user, 2)
  {
    if Truthy(f.dateTo) { AddShaped(q, user, 1, DataCriacao, AtMost, TextParam(f.dateTo.value)); }
  }

  lemma StatusShaped(q: Query, user: UserId, f: TaskFilterOptions)
    requires Shaped(q, user, 2)
    ensures Shaped(WithStatus(q, f), user, 3)
  {
    if f.status.Some? { AddShaped(q, user, 2, Situacao, Equals, BoolParam(StatusValue(f.status.value))); }
  }

  lemma SearchShaped(q: Query, user: UserId, f: TaskFilterOptions)
    requires Shaped(q, user, 3)
    ensures Shaped(WithSearch(q, f), user, 4)
  {
    if Truthy(f.searchTerm) { AddShaped(q, user, 3, Descricao, ILike, TextParam("%" + f.searchTerm.value + "%")); }
  }

  /** Each step that fires adds one parameter. */
  lemma ParamCount(q: Query, f: TaskFilterOptions)
    ensures |WithSearch(WithStatus(WithDateTo(WithDateFrom(q, f), f), f), f).params| == |q.params| + PresentCount(f)
  {
  }

  /** After all four steps, a condition is in the query exactly when the step
      that adds it fired or the owner test is meant. */
  lemma {:induction false} StepsConditions(user: UserId, f: TaskFilterOptions, c: Column, o: Op, v: Param)
    ensures HasColumnOp(BuildQuery(user, f), c, o) <==>
              || (c == UsuarioId && o == Equals)
              || (Truthy(f.dateFrom) && c == DataCriacao && o == AtLeast)
              || (Truthy(f.dateTo) && c == DataCriacao && o == AtMost)
              || (f.status.Some? && c == Situacao && o == Equals)
              || (Truthy(f.searchTerm) && c == Descricao && o == ILike)
    ensures (|| (Truthy(f.dateFrom) && (c, o, v) == (DataCriacao, AtLeast, TextParam(f.dateFrom.value)))
             || (Truthy(f.dateTo) && (c, o, v) == (DataCriacao, AtMost, TextParam(f.dateTo.value)))
             || (f.status.Some? && (c, o, v) == (Situacao, Equals, BoolParam(StatusValue(f.status.value))))
             || (Truthy(f.searchTerm) && (c, o, v) == (Descricao, ILike, TextParam("%" + f.searchTerm.value + "%"))))
            ==> HasCondition(BuildQuery(user, f), c, o, v)
  {
    var q0 := OwnerOnly(user);
    var q1 := WithDateFrom(q0, f);
    var q2 := WithDateTo(q1, f);
    var q3 := WithStatus(q2, f);
    assert HasColumnOp(q0, c, o) <==> c == UsuarioId && o == Equals by {
      if c == UsuarioId && o == Equals {
        assert q0.clauses[0].column == c;
      }
    }
    DateFromConditions(q0, f, c, o, v);
    DateToConditions(q1, f, c, o, v);
    StatusConditions(q2, f, c, o, v);
    SearchConditions(q3, f, c, o, v);
  }

  /** The date-from step adds its condition, when it fires, and no other. */
  lemma DateFromConditions(q: Query, f: TaskFilterOptions, c: Column, o: Op, v: Param)
    requires |q.clauses| == |q.params|
    ensures |WithDateFrom(q, f).clauses| == |WithDateFrom(q, f).params|
    ensures HasColumnOp(WithDateFrom(q, f), c, o) <==> HasColumnOp(q, c, o) || (Truthy(f.dateFrom) && (c, o) == (DataCriacao, AtLeast))
    ensures HasCondition(q, c, o, v) ==> HasCondition(WithDateFrom(q, f), c, o, v)
    ensures Truthy(f.dateFrom) ==> HasCondition(WithDateFrom(q, f), DataCriacao, AtLeast, TextParam(f.dateFrom.value))
  {
    if Truthy(f.dateFrom) {
      AddColumnOps(q, DataCriacao, AtLeast, TextParam(f.dateFrom.value), c, o);
      AddConditions(q, DataCriacao, AtLeast, TextParam(f.dateFrom.value), c, o, v);
    }
  }

  /** The date-to step adds its condition, when it fires, and no other. */
  lemma DateToConditions(q: Query, f: TaskFilterOptions, c: Column, o: Op, v: Param)
    requires |q.clauses| == |q.params|
    ensures |WithDateTo(q, f).clauses| == |WithDateTo(q, f).params|
    ensures HasColumnOp(WithDateTo(q, f), c, o) <==> HasColumnOp(q, c, o) || (Truthy(f.dateTo) && (c, o) == (DataCriacao, AtMost))
    ensures HasCondition(q, c, o, v) ==> HasCondition(WithDateTo(q, f), c, o, v)
    ensures Truthy(f.dateTo) ==> HasCondition(WithDateTo(q, f), DataCriacao, AtMost, TextParam(f.dateTo.value))
  {
    if Truthy(f.dateTo) {
      AddColumnOps(q, DataCriacao, AtMost, TextParam(f.dateTo.value), c, o);
      AddConditions(q, DataCriacao, AtMost, TextParam(f.dateTo.value), c, o, v);
    }
  }

  /** The status step adds its condition, when it fires, and no other. */
  lemma StatusConditions(q: Query, f: TaskFilterOptions, c: Column, o: Op, v: Param)
    requires |q.clauses| == |q.params|
    ensures |WithStatus(q, f).clauses| == |WithStatus(q, f).params|
    ensures HasColumnOp(WithStatus(q, f), c, o) <==> HasColumnOp(q, c, o) || (f.status.Some? && (c, o) == (Situacao, Equals))
    ensures HasCondition(q, c, o, v) ==> HasCondition(WithStatus(q, f), c, o, v)
    ensures f.status.Some? ==> HasCondition(WithStatus(q, f), Situacao, Equals, BoolParam(StatusValue(f.status.value)))
  {
    if f.status.Some? {
      AddColumnOps(q, Situacao, Equals, BoolParam(StatusValue(f.status.value)), c, o);
      AddConditions(q, Situacao, Equals, BoolParam(StatusValue(f.status.value)), c, o, v);
    }
  }

  /** The search step adds its condition, when it fires, and no other. */
  lemma SearchConditions(q: Query, f: TaskFilterOptions, c: Column, o: Op, v: Param)
    requires |q.clauses| == |q.params|
    ensures |WithSearch(q, f).clauses| == |WithSearch(q, f).params|
    ensures HasColumnOp(WithSearch(q, f), c, o) <==> HasColumnOp(q, c, o) || (Truthy(f.searchTerm) && (c, o) == (Descricao, ILike))
    ensures HasCondition(q, c, o, v) ==> HasCondition(WithSearch(q, f), c, o, v)
    ensures Truthy(f.searchTerm) ==> HasCondition(WithSearch(q, f), Descricao, ILike, TextParam("%" + f.searchTerm.value + "%"))
  {
    if Truthy(f.searchTerm) {
      AddColumnOps(q, Descricao, ILike, TextParam("%" + f.searchTerm.value + "%"), c, o);
      AddConditions(q, Descricao, ILike, TextParam("%" + f.searchTerm.value + "%"), c, o, v);
    }
  }

  /** Each filter is in the query exactly when it is present, bound to the
      value the source computes for it: the date strings as given, the
      status as true only for "true" and "1", the search term wrapped in
      `%` with nothing escaped. */
  lemma BuildQueryFilters(user: UserId, f: TaskFilterOptions)
    ensures HasColumnOp(BuildQuery(user, f), DataCriacao, AtLeast) <==> Truthy(f.dateFrom)
    ensures Truthy(f.dateFrom) ==> HasCondition(BuildQuery(user, f), DataCriacao, AtLeast, TextParam(f.dateFrom.value))
    ensures HasColumnOp(BuildQuery(user, f), DataCriacao, AtMost) <==> Truthy(f.dateTo)
    ensures Truthy(f.dateTo) ==> HasCondition(BuildQuery(user, f), DataCriacao, AtMost, TextParam(f.dateTo.value))
    ensures HasColumnOp(BuildQuery(user, f), Situacao, Equals) <==> f.status.Some?
    ensures f.status.Some? ==>
              HasCondition(BuildQuery(user, f), Situacao, Equals,
                           BoolParam(f.status.value == "true" || f.status.value == "1"))
    ensures HasColumnOp(BuildQuery(user, f), Descricao, ILike) <==> Truthy(f.searchTerm)
    ensures Truthy(f.searchTerm) ==>
              HasCondition(BuildQuery(user, f), Descricao, ILike, TextParam("%" + f.searchTerm.value + "%"))
  {
    var none := BoolParam(false);
    StepsConditions(user, f, DataCriacao, AtLeast, if Truthy(f.dateFrom) then TextParam(f.dateFrom.value) else none);
    StepsConditions(user, f, DataCriacao, AtMost, if Truthy(f.dateTo) then TextParam(f.dateTo.value) else none);
    StepsConditions(user, f, Situacao, Equals, if f.status.Some? then BoolParam(StatusValue(f.status.value)) else none);
    StepsConditions(user, f, Descricao, ILike,
                    if Truthy(f.searchTerm) then TextParam("%" + f.searchTerm.value + "%") else none);
  }

  function ColumnName(c: Column): string {
    match c
    case UsuarioId => "usuario_id"
    case DataCriacao => "data_criacao"
    case Situacao => "situacao"
    case Descricao => "descricao"
  }

  function OpText(o: Op): string {
    match o
    case Equals => "="
    case AtLeast => ">="
    case AtMost => "<="
    case ILike => "ILIKE"
  }

  function ClauseText(c: Clause): string {
    ColumnName(c.column) + " " + OpText(c.op) + " $" + NatToString(c.placeholder)
  }

  /** The text between the previous condition and the placeholder number. */
  function Connector(column: Column, op: Op): string {
    " AND " + ColumnName(column) + " " + OpText(op) + " $"
  }

  /** `" AND " + clause`. */
  function AndText(c: Clause): string {
    Connector(c.column, c.op) + NatToString(c.placeholder)
  }

  /** The further conditions, each with its `AND`. */
  function AndClauses(cs: seq<Clause>): string {
    if |cs| == 0 then "" else AndClauses(cs[..|cs| - 1]) + AndText(cs[|cs| - 1])
  }

  const SelectPrefix := "SELECT * FROM tarefa WHERE "
  const OrderBy := " ORDER BY data_criacao DESC"

  /** The text up to, and without, the ordering. */
  function Conditions(q: Query): string
    requires |q.clauses| > 0
  {
    SelectPrefix + ClauseText(q.clauses[0]) + AndClauses(q.clauses[1..])
  }

  /** The SQL text of a query. */
  function Render(q: Query): string
    requires |q.clauses| > 0
  {
    Conditions(q) + OrderBy
  }

  /** Appending a condition appends its text. */
  lemma ConditionsAdd(q: Query, column: Column, op: Op, p: Param)
    requires |q.clauses| > 0
    ensures Conditions(Add(q, column, op, p)) == Conditions(q) + AndText(Clause(column, op, |q.params| + 1))
  {
    var r := Add(q, column, op, p);
    var rest := r.clauses[1..];
    assert rest[..|rest| - 1] == q.clauses[1..];
  }

  /** Every rendered query starts with the owner test on `$1` and ends with
      the newest-first ordering. */
  lemma RenderFrame(user: UserId, f: TaskFilterOptions)
    ensures StartsWith(Render(BuildQuery(user, f)), "SELECT * FROM tarefa WHERE usuario_id = $1")
    ensures EndsWith(Render(BuildQuery(user, f)), OrderBy)
  {
    BuildQueryShape(user, f);
    var q := BuildQuery(user, f);
    assert ClauseText(q.clauses[0]) == "usuario_id = $1";
    var head := SelectPrefix + ClauseText(q.clauses[0]);
    assert head == "SELECT * FROM tarefa WHERE usuario_id = $1";
    assert Render(q) == head + (AndClauses(q.clauses[1..]) + OrderBy);
    StartsWithAppend(head, head, AndClauses(q.clauses[1..]) + OrderBy);
    var front := Conditions(q);
    assert (front + OrderBy)[|front + OrderBy| - |OrderBy|..] == OrderBy;
  }

  /** The four connectors as the handler spells them. */
  lemma ConnectorTexts()
    ensures Connector(DataCriacao, AtLeast) == " AND data_criacao >= $"
    ensures Connector(DataCriacao, AtMost) == " AND data_criacao <= $"
    ensures Connector(Situacao, Equals) == " AND situacao = $"
    ensures Connector(Descricao, ILike) == " AND descricao ILIKE $"
  {
  }

  /** One step of the handler's text building extends the rendered
      conditions by exactly the new condition. */
  lemma AppendStep(q: Query, column: Column, op: Op, p: Param, query: string, counter: nat)
    requires |q.clauses| > 0 && query == Conditions(q) && counter == |q.params| + 1
    ensures query + Connector(column, op) + NatToString(counter) == Conditions(Add(q, column, op, p))
  {
    ConditionsAdd(q, column, op, p);
  }

  /** The handler's own construction: a text built by appending one
      condition per present filter while a counter hands out placeholder
      numbers from 2. It produces exactly the rendered query and its
      parameters. */
  method BuildQueryText(user: UserId, f: TaskFilterOptions) returns (query: string, params: seq<Param>)
    ensures query == Render(BuildQuery(user, f))
    ensures params == BuildQuery(user, f).params
  {
    query := "SELECT * FROM tarefa WHERE usuario_id = $1";
    params := [UserParam(user)];
    var counter: nat := 2;
    ghost var q := OwnerOnly(user);
    assert query == Conditions(q);
    ConnectorTexts();

    if Truthy(f.dateFrom) {
      AppendStep(q, DataCriacao, AtLeast, TextParam(f.dateFrom.value), query, counter);
      query := query + " AND data_criacao >= $" + NatToString(counter);
      params := params + [TextParam(f.dateFrom.value)];
      q := Add(q, DataCriacao, AtLeast, TextParam(f.dateFrom.value));
      counter := counter + 1;
    }
    assert q == WithDateFrom(OwnerOnly(user), f);
    if Truthy(f.dateTo) {
      AppendStep(q, DataCriacao, AtMost, TextParam(f.dateTo.value), query, counter);
      query := query + " AND data_criacao <= $" + NatToString(counter);
      params := params + [TextParam(f.dateTo.value)];
      q := Add(q, DataCriacao, AtMost, TextParam(f.dateTo.value));
      counter := counter + 1;
    }
    assert q == WithDateTo(WithDateFrom(OwnerOnly(user), f), f);
    if f.status.Some? {
      var statusValue := f.status.value == "true" || f.status.value == "1";
      AppendStep(q, Situacao, Equals, BoolParam(statusValue), query, counter);
      query := query + " AND situacao = $" + NatToString(counter);
      params := params + [BoolParam(statusValue)];
      q := Add(q, Situacao, Equals, BoolParam(statusValue));
      counter := counter + 1;
    }
    assert q == WithStatus(WithDateTo(WithDateFrom(OwnerOnly(user), f), f), f);
    if Truthy(f.searchTerm) {
      AppendStep(q, Descricao, ILike, TextParam("%" + f.searchTerm.value + "%"), query, counter);
      query := query + " AND descricao ILIKE $" + NatToString(counter);
      params := params + [TextParam("%" + f.searchTerm.value + "%")];
      q := Add(q, Descricao, ILike, TextParam("%" + f.searchTerm.value + "%"));
      counter := counter + 1;
    }
    assert q == BuildQuery(user, f);
    query := query + " ORDER BY data_criacao DESC";
  }
}
