/**
 * The pieces of `update_task` (taskapp/lambda-functions/tasks-functions.py)
 * that are built by successive appends: the list of changes used for the
 * notification, the dynamic RDS `UPDATE` statement with its parameter list,
 * and the DynamoDB update expression with its attribute values and names.
 * All three are derived from the same ordered list of edits: the truthy
 * fields of the request body, in the order title, description, status.
 */
module TaskUpdate {
  import opened Wrappers
  import opened Text

  /** The user-editable content of a task, as both stores hold it. */
  datatype Content = Content(title: string, description: string, status: string)

  /** The fields of an update body; each is absent or a string. */
  datatype Fields = Fields(title: Option<string>, description: Option<string>, status: Option<string>)

  datatype Field = Title | Description | Status

  /** The position of a field in the order the source considers them. */
  function Rank(f: Field): nat
  {
    match f
    case Title => 0
    case Description => 1
    case Status => 2
  }

  function Requested(u: Fields, f: Field): Option<string>
  {
    match f
    case Title => u.title
    case Description => u.description
    case Status => u.status
  }

  function Stored(c: Content, f: Field): string
  {
    match f
    case Title => c.title
    case Description => c.description
    case Status => c.status
  }

  /** Setting one field to a new value. */
  datatype Edit = Edit(field: Field, value: string)

  /** The edit for one field of the body: none unless the value is truthy. */
  function Pick(f: Field, v: Option<string>): (es: seq<Edit>)
  {
    if Truthy(v) then [Edit(f, v.value)] else []
  }

  /** The edits an update performs: one per truthy field, in source order. */
  function Edits(u: Fields): (es: seq<Edit>)
  {
    Pick(Title, u.title) + Pick(Description, u.description) + Pick(Status, u.status)
  }

  /**
   * The edits are exactly the truthy fields with their values, each field at
   * most once, in source order.
   */
  lemma EditsMeaning(u: Fields)
    ensures |Edits(u)| <= 3
    ensures forall i :: 0 <= i < |Edits(u)| ==>
              Truthy(Requested(u, Edits(u)[i].field)) && Edits(u)[i].value == Requested(u, Edits(u)[i].field).value
    ensures forall i, j :: 0 <= i < j < |Edits(u)| ==> Rank(Edits(u)[i].field) < Rank(Edits(u)[j].field)
    ensures forall f :: Truthy(Requested(u, f)) ==> Edit(f, Requested(u, f).value) in Edits(u)
  {
  }

  function Set(c: Content, e: Edit): (r: Content)
  {
    match e.field
    case Title => c.(title := e.value)
    case Description => c.(description := e.value)
    case Status => c.(status := e.value)
  }

  /** Executing `SET` clauses one after the other. */
  function ApplyEdits(c: Content, es: seq<Edit>): (r: Content)
    decreases es
  {
    if es == [] then c else ApplyEdits(Set(c, es[0]), es[1..])
  }

  /** What an update body means for the stored content: every truthy field replaces the stored one. */
  function Updated(c: Content, u: Fields): (r: Content)
    ensures forall f :: Stored(r, f) == if Truthy(Requested(u, f)) then Requested(u, f).value else Stored(c, f)
  {
    Content(if Truthy(u.title) then u.title.value else c.title,
            if Truthy(u.description) then u.description.value else c.description,
            if Truthy(u.status) then u.status.value else c.status)
  }

  lemma {:induction false} ApplyEditsAppend(c: Content, es: seq<Edit>, e: Edit)
    ensures ApplyEdits(c, es + [e]) == Set(ApplyEdits(c, es), e)
    decreases es
  {
    if es == [] {
      assert es + [e] == [e];
    } else {
      assert (es + [e])[1..] == es[1..] + [e];
      ApplyEditsAppend(Set(c, es[0]), es[1..], e);
    }
  }

  /** Running the generated `SET` clauses in order gives exactly the meaning of the update body. */
  lemma ApplyEditsMeaning(c: Content, u: Fields)
    ensures ApplyEdits(c, Edits(u)) == Updated(c, u)
  {
    var t := Pick(Title, u.title);
    var d := Pick(Description, u.description);
    var s := Pick(Status, u.status);
    var c1 := ApplyEdits(c, t);
    assert c1 == c.(title := Updated(c, u).title) by {
      if t != [] {
        ApplyEditsAppend(c, [], t[0]);
        assert [] + [t[0]] == t;
      }
    }
    var c2 := ApplyEdits(c, t + d);
    assert c2 == c1.(description := Updated(c, u).description) by {
      if d != [] { ApplyEditsAppend(c, t, d[0]); } else { assert t + d == t; }
    }
    assert Edits(u) == t + d + s;
    if s != [] { ApplyEditsAppend(c, t + d, s[0]); } else { assert t + d + s == t + d; }
  }

  /** One entry of the `changes` list. */
  datatype Change = TitleChanged(from: string, to: string) | DescriptionChanged | StatusChanged(from: string, to: string)

  function ChangeField(ch: Change): Field
  {
    match ch
    case TitleChanged(_, _) => Title
    case DescriptionChanged => Description
    case StatusChanged(_, _) => Status
  }

  /** Field `f` is requested with a truthy value that differs from the stored one. */
  predicate Differs(c: Content, u: Fields, f: Field)
  {
    Truthy(Requested(u, f)) && Requested(u, f).value != Stored(c, f)
  }

  /** `ch` correctly reports a differing field, with the old and new values where it names them. */
  predicate Reports(c: Content, u: Fields, ch: Change)
  {
    && Differs(c, u, ChangeField(ch))
    && match ch
       case TitleChanged(a, b) => a == c.title && b == u.title.value
       case DescriptionChanged => true
       case StatusChanged(a, b) => a == c.status && b == u.status.value
  }

  /**
   * The `changes` list: one correct entry for each field that is truthy and
   * differs from the stored value, in source order, and nothing else. It is
   * empty exactly when the update leaves the content as it was.
   */
  method ChangeList(c: Content, u: Fields) returns (changes: seq<Change>)
    ensures forall i :: 0 <= i < |changes| ==> Reports(c, u, changes[i])
    ensures forall i, j :: 0 <= i < j < |changes| ==> Rank(ChangeField(changes[i])) < Rank(ChangeField(changes[j]))
    ensures forall f :: Differs(c, u, f) ==> exists i :: 0 <= i < |changes| && ChangeField(changes[i]) == f
    ensures changes == [] <==> Updated(c, u) == c
  {
    changes := [];
    if Truthy(u.title) && u.title.value != c.title {
      changes := changes + [TitleChanged(c.title, u.title.value)];
    }
    if Truthy(u.description) && u.description.value != c.description {
      changes := changes + [DescriptionChanged];
    }
    if Truthy(u.status) && u.status.value != c.status {
      changes := changes + [StatusChanged(c.status, u.status.value)];
    }
    assert Differs(c, u, Title) ==> ChangeField(changes[0]) == Title;
    assert Differs(c, u, Status) ==> ChangeField(changes[|changes| - 1]) == Status;
    assert Differs(c, u, Description) ==>
      ChangeField(changes[if Differs(c, u, Title) then 1 else 0]) == Description;
  }

  /** A positional parameter of the RDS statement. */
  datatype Param = TimeParam(at: nat) | TextParam(text: string)

  function Column(f: Field): string
  {
    match f
    case Title => "title"
    case Description => "description"
    case Status => "status"
  }

  /** The `, column = %s` clauses for a list of edits. */
  function SetClauses(es: seq<Edit>): (clauses: string)
  {
    if es == [] then "" else ", " + Column(es[0].field) + " = %s" + SetClauses(es[1..])
  }

  function EditParams(es: seq<Edit>): (ps: seq<Param>)
    ensures |ps| == |es|
    ensures forall i :: 0 <= i < |es| ==> ps[i] == TextParam(es[i].value)
  {
    if es == [] then [] else [TextParam(es[0].value)] + EditParams(es[1..])
  }

  const RdsUpdateHead := "UPDATE tasks SET updated_at = " + "%s"
  const RdsUpdateWhere := " WHERE task_id = " + "%s" + " AND user_id = " + "%s"

  lemma {:induction false} SetClausesAppend(es: seq<Edit>, e: Edit)
    ensures SetClauses(es + [e]) == SetClauses(es) + SetClauses([e])
    ensures EditParams(es + [e]) == EditParams(es) + EditParams([e])
  {
    if es == [] {
      assert es + [e] == [e];
    } else {
      assert (es + [e])[1..] == es[1..] + [e];
      SetClausesAppend(es[1..], e);
    }
  }

  lemma {:induction false} NoPercent(s: string)
    requires '%' !in s
    ensures CountChar(s, '%') == 0
  {
    if s != [] {
      assert s[0] != '%' && '%' !in s[1..];
      NoPercent(s[1..]);
    }
  }

  lemma OnePlaceholder(pre: string)
    requires '%' !in pre
    ensures CountChar(pre + "%s", '%') == 1
  {
    NoPercent(pre);
    CountCharAppend(pre, "%s", '%');
  }

  lemma SetClauseOne(e: Edit)
    ensures SetClauses([e]) == ", " + Column(e.field) + " = " + "%s"
  {
    assert [e][1..] == [];
  }

  lemma ColumnHasNoPercent(f: Field)
    ensures '%' !in ", " + Column(f) + " = "
  {
    match f
    case Title => assert ", " + Column(f) + " = " == ", title = ";
    case Description => assert ", " + Column(f) + " = " == ", description = ";
    case Status => assert ", " + Column(f) + " = " == ", status = ";
  }

  lemma PlaceholderStep(pre: string, rest: string)
    requires '%' !in pre
    ensures CountChar(pre + "%s" + rest, '%') == 1 + CountChar(rest, '%')
  {
    OnePlaceholder(pre);
    CountCharAppend(pre + "%s", rest, '%');
  }

  /** Each clause carries exactly one placeholder. */
  lemma {:induction false} SetClausesPlaceholders(es: seq<Edit>)
    ensures CountChar(SetClauses(es), '%') == |es|
  {
    if es != [] {
      var pre := ", " + Column(es[0].field) + " = ";
      ColumnHasNoPercent(es[0].field);
      assert SetClauses(es) == pre + "%s" + SetClauses(es[1..]);
      PlaceholderStep(pre, SetClauses(es[1..]));
      SetClausesPlaceholders(es[1..]);
    }
  }

  lemma HeadPlaceholders()
    ensures CountChar(RdsUpdateHead, '%') == 1
  {
    OnePlaceholder("UPDATE tasks SET updated_at = ");
  }

  lemma TwoPlaceholders(p: string, q: string)
    requires '%' !in p && '%' !in q
    ensures CountChar(p + "%s" + q + "%s", '%') == 2
  {
    OnePlaceholder(p);
    OnePlaceholder(q);
    assert p + "%s" + q + "%s" == (p + "%s") + (q + "%s");
    CountCharAppend(p + "%s", q + "%s", '%');
  }

  lemma WherePlaceholders()
    ensures CountChar(RdsUpdateWhere, '%') == 2
  {
    TwoPlaceholders(" WHERE task_id = ", " AND user_id = ");
  }

  lemma CountAcross(h: string, m: string, w: string)
    ensures CountChar(h + m + w, '%') == CountChar(h, '%') + CountChar(m, '%') + CountChar(w, '%')
  {
    CountCharAppend(h, m, '%');
    CountCharAppend(h + m, w, '%');
  }

  /** The fixed head and `WHERE` of the statement carry three placeholders between them. */
  lemma FramePlaceholders(clauses: string)
    ensures CountChar(RdsUpdateHead + clauses + RdsUpdateWhere, '%') == 3 + CountChar(clauses, '%')
  {
    CountAcross(RdsUpdateHead, clauses, RdsUpdateWhere);
    HeadPlaceholders();
    WherePlaceholders();
  }

  /** The statement carries one placeholder per positional parameter. */
  lemma PlaceholdersMatchParams(es: seq<Edit>)
    ensures CountChar(RdsUpdateHead + SetClauses(es) + RdsUpdateWhere, '%') == 3 + |es|
  {
    FramePlaceholders(SetClauses(es));
    SetClausesPlaceholders(es);
  }

  lemma ClauseTexts()
    ensures ", " + Column(Title) + " = " + "%s" == ", title = %s"
    ensures ", " + Column(Description) + " = " + "%s" == ", description = %s"
    ensures ", " + Column(Status) + " = " + "%s" == ", status = %s"
  {
  }

  /** One step of the statement builder keeps query and parameters in step with the edits so far. */
  lemma AppendSetClause(query: string, params: seq<Param>, es: seq<Edit>, e: Edit, clause: string, now: nat)
    requires query == RdsUpdateHead + SetClauses(es) && params == [TimeParam(now)] + EditParams(es)
    requires clause == ", " + Column(e.field) + " = " + "%s"
    ensures query + clause == RdsUpdateHead + SetClauses(es + [e])
    ensures params + [TextParam(e.value)] == [TimeParam(now)] + EditParams(es + [e])
  {
    SetClausesAppend(es, e);
    SetClauseOne(e);
    ConcatAssoc(RdsUpdateHead, SetClauses(es), clause);
    ConcatAssoc([TimeParam(now)], EditParams(es), [TextParam(e.value)]);
  }

  /**
   * The RDS statement of `update_task`: `updated_at` always, then one
   * `column = %s` per edit in order, then the owner-scoped `WHERE`; the
   * parameters are the time, the edit values in the same order, the task id
   * and the user id, and there is one placeholder per parameter.
   */
  method BuildRdsUpdate(u: Fields, now: nat, taskId: string, userId: string)
    returns (query: string, params: seq<Param>)
    ensures query == RdsUpdateHead + SetClauses(Edits(u)) + RdsUpdateWhere
    ensures params == [TimeParam(now)] + EditParams(Edits(u)) + [TextParam(taskId), TextParam(userId)]
    ensures |params| == 3 + |Edits(u)|
    ensures CountChar(query, '%') == |params|
  {
    ClauseTexts();
    ghost var es: seq<Edit> := [];
    query := RdsUpdateHead;
    params := [TimeParam(now)];
    assert RdsUpdateHead + SetClauses([]) == RdsUpdateHead;
    if Truthy(u.title) {
      ghost var e := Edit(Title, u.title.value);
      AppendSetClause(query, params, es, e, ", title = %s", now);
      es := es + [e];
      query := query + ", title = %s";
      params := params + [TextParam(u.title.value)];
    }
    assert query == RdsUpdateHead + SetClauses(es) && params == [TimeParam(now)] + EditParams(es);
    assert es == Pick(Title, u.title);
    if Truthy(u.description) {
      ghost var e := Edit(Description, u.description.value);
      AppendSetClause(query, params, es, e, ", description = %s", now);
      es := es + [e];
      query := query + ", description = %s";
      params := params + [TextParam(u.description.value)];
    }
    assert query == RdsUpdateHead + SetClauses(es) && params == [TimeParam(now)] + EditParams(es);
    assert es == Pick(Title, u.title) + Pick(Description, u.description);
    if Truthy(u.status) {
      ghost var e := Edit(Status, u.status.value);
      AppendSetClause(query, params, es, e, ", status = %s", now);
      es := es + [e];
      query := query + ", status = %s";
      params := params + [TextParam(u.status.value)];
    }
    assert query == RdsUpdateHead + SetClauses(es) && params == [TimeParam(now)] + EditParams(es);
    assert es == Edits(u);
    query := query + RdsUpdateWhere;
    params := params + [TextParam(taskId), TextParam(userId)];
    assert CountChar(query, '%') == |params| by {
      PlaceholdersMatchParams(es);
    }
  }

  /** A DynamoDB attribute value. */
  datatype AttrValue = TimeValue(at: nat) | TextValue(text: string)

  function Placeholder(f: Field): string
  {
    match f
    case Title => ":title"
    case Description => ":description"
    case Status => ":status"
  }

  /** The attribute named in the expression; `status` is reserved and goes through `#status`. */
  function AttributeRef(f: Field): string
  {
    match f
    case Title => "title"
    case Description => "description"
    case Status => "#status"
  }

  function DynamoClauses(es: seq<Edit>): (clauses: string)
  {
    if es == [] then "" else ", " + AttributeRef(es[0].field) + " = " + Placeholder(es[0].field) + DynamoClauses(es[1..])
  }

  const DynamoUpdateHead := "SET updatedAt = :updatedAt"

  lemma {:induction false} DynamoClausesAppend(es: seq<Edit>, e: Edit)
    ensures DynamoClauses(es + [e]) == DynamoClauses(es) + DynamoClauses([e])
  {
    if es == [] {
      assert es + [e] == [e];
    } else {
      assert (es + [e])[1..] == es[1..] + [e];
      DynamoClausesAppend(es[1..], e);
    }
  }

  /** The placeholders an expression built from `es` refers to. */
  function Placeholders(es: seq<Edit>): (ps: set<string>)
  {
    set i | 0 <= i < |es| :: Placeholder(es[i].field)
  }

  /**
   * `values` gives `:updatedAt` the time and every placeholder of `es` its
   * edit's value, and has no other key.
   */
  predicate ValuesFor(values: map<string, AttrValue>, es: seq<Edit>, now: nat)
  {
    && values.Keys == {":updatedAt"} + Placeholders(es)
    && values[":updatedAt"] == TimeValue(now)
    && forall i :: 0 <= i < |es| ==> values[Placeholder(es[i].field)] == TextValue(es[i].value)
  }

  /** Adding the value of an edit for a later field keeps the values in step with the edits. */
  lemma AddValue(values: map<string, AttrValue>, es: seq<Edit>, e: Edit, now: nat)
    requires ValuesFor(values, es, now)
    requires forall i :: 0 <= i < |es| ==> Rank(es[i].field) < Rank(e.field)
    ensures ValuesFor(values[Placeholder(e.field) := TextValue(e.value)], es + [e], now)
  {
    var es' := es + [e];
    var values' := values[Placeholder(e.field) := TextValue(e.value)];
    assert Placeholders(es') == Placeholders(es) + {Placeholder(e.field)} by {
      forall p | p in Placeholders(es') ensures p in Placeholders(es) + {Placeholder(e.field)} {
        var i :| 0 <= i < |es'| && p == Placeholder(es'[i].field);
        if i < |es| { assert es'[i] == es[i]; }
      }
      forall p | p in Placeholders(es) ensures p in Placeholders(es') {
        var i :| 0 <= i < |es| && p == Placeholder(es[i].field);
        assert es'[i] == es[i];
      }
      assert es'[|es|] == e;
    }
    assert Placeholder(e.field) != ":updatedAt";
    forall i | 0 <= i < |es'| ensures values'[Placeholder(es'[i].field)] == TextValue(es'[i].value) {
      if i < |es| {
        assert es'[i] == es[i];
        assert Placeholder(es[i].field) != Placeholder(e.field) by {
          assert Rank(es[i].field) < Rank(e.field);
        }
      }
    }
  }

  lemma DynamoClauseTexts()
    ensures ", " + AttributeRef(Title) + " = " + Placeholder(Title) == ", title = :title"
    ensures ", " + AttributeRef(Description) + " = " + Placeholder(Description) == ", description = :description"
    ensures ", " + AttributeRef(Status) + " = " + Placeholder(Status) == ", #status = :status"
  {
  }

  /** One step of the expression builder keeps the expression in step with the edits so far. */
  lemma AppendDynamoClause(expr: string, es: seq<Edit>, e: Edit, clause: string)
    requires expr == DynamoUpdateHead + DynamoClauses(es)
    requires clause == ", " + AttributeRef(e.field) + " = " + Placeholder(e.field)
    ensures expr + clause == DynamoUpdateHead + DynamoClauses(es + [e])
  {
    DynamoClausesAppend(es, e);
    assert DynamoClauses([e]) == clause by { assert [e][1..] == []; }
    ConcatAssoc(DynamoUpdateHead, DynamoClauses(es), clause);
  }

  /**
   * The DynamoDB update of `update_task`: `updatedAt` always, then one
   * `attribute = :placeholder` per edit in the same order as the RDS
   * statement; every placeholder has its value and no other value is given;
   * `#status` is declared exactly when the status is set.
   */
  method BuildDynamoUpdate(u: Fields, now: nat)
    returns (expr: string, values: map<string, AttrValue>, names: map<string, string>)
    ensures expr == DynamoUpdateHead + DynamoClauses(Edits(u))
    ensures ValuesFor(values, Edits(u), now)
    ensures names == if Truthy(u.status) then map["#status" := "status"] else map[]
  {
    DynamoClauseTexts();
    ghost var es: seq<Edit> := [];
    expr := DynamoUpdateHead;
    values := map[":updatedAt" := TimeValue(now)];
    names := map[];
    assert DynamoUpdateHead + DynamoClauses([]) == DynamoUpdateHead;
    assert ValuesFor(values, es, now);
    if Truthy(u.title) {
      ghost var e := Edit(Title, u.title.value);
      AppendDynamoClause(expr, es, e, ", title = :title");
      AddValue(values, es, e, now);
      es := es + [e];
      expr := expr + ", title = :title";
      values := values[":title" := TextValue(u.title.value)];
    }
    assert expr == DynamoUpdateHead + DynamoClauses(es) && ValuesFor(values, es, now);
    assert es == Pick(Title, u.title);
    if Truthy(u.description) {
      ghost var e := Edit(Description, u.description.value);
      AppendDynamoClause(expr, es, e, ", description = :description");
      AddValue(values, es, e, now);
      es := es + [e];
      expr := expr + ", description = :description";
      values := values[":description" := TextValue(u.description.value)];
    }
    assert expr == DynamoUpdateHead + DynamoClauses(es) && ValuesFor(values, es, now);
    assert es == Pick(Title, u.title) + Pick(Description, u.description);
    if Truthy(u.status) {
      ghost var e := Edit(Status, u.status.value);
      AppendDynamoClause(expr, es, e, ", #status = :status");
      AddValue(values, es, e, now);
      es := es + [e];
      expr := expr + ", #status = :status";
      values := values[":status" := TextValue(u.status.value)];
      names := names["#status" := "status"];
    }
    assert expr == DynamoUpdateHead + DynamoClauses(es) && ValuesFor(values, es, now);
    assert es == Edits(u);
  }
}
