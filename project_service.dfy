/** The project service of the backend (backend/src/services/project.service.ts):
    the statement `updateProject` builds from the defined fields of a request,
    the values `createProject` inserts with their defaults, and the row
    `duplicateProject` inserts for a copy.  The database is not modelled: a
    table is a sequence of rows and the service's statements are values. */
module ProjectService {
  import opened Wrappers
  import opened Strings
  import opened JsValues

  // ---------------------------------------------------------------------------
  // updateProject

  /** A field of an update request: its column and its value, `None` when the
      request leaves it `undefined`.  A `null` or an empty string is a value. */
  datatype Field = Field(column: string, value: Option<Json>)

  datatype UpdateRequest = UpdateRequest(
    name: Option<Json>,
    description: Option<Json>,
    html: Option<Json>,
    css: Option<Json>,
    js: Option<Json>,
    projectType: Option<Json>,
    requirements: Option<Json>,
    thumbnail: Option<Json>,
    tags: Option<Json>)

  /** The fields in the order `updateProject` tests them. */
  function Fields(d: UpdateRequest): (fs: seq<Field>)
    ensures |fs| == 9
  {
    [Field("name", d.name), Field("description", d.description), Field("html", d.html),
     Field("css", d.css), Field("js", d.js), Field("type", d.projectType),
     Field("requirements", d.requirements), Field("thumbnail", d.thumbnail), Field("tags", d.tags)]
  }

  /** The fields whose value is not `undefined`, in order. */
  function Defined(fs: seq<Field>): (r: seq<Field>)
    ensures |r| <= |fs|
  {
    if fs == [] then []
    else Defined(fs[..|fs| - 1]) + (if fs[|fs| - 1].value.Some? then [fs[|fs| - 1]] else [])
  }

  /** Where each defined field sits among all the fields. */
  function Positions(fs: seq<Field>): (r: seq<nat>)
    ensures |r| == |Defined(fs)|
  {
    if fs == [] then []
    else Positions(fs[..|fs| - 1]) + (if fs[|fs| - 1].value.Some? then [|fs| - 1] else [])
  }

  /** The defined fields are a subsequence of the fields: they keep their
      order, and a field is kept exactly when its value is defined. */
  lemma {:induction false} DefinedInOrder(fs: seq<Field>)
    ensures var pos := Positions(fs);
      && (forall k :: 0 <= k < |pos| ==> pos[k] < |fs| && Defined(fs)[k] == fs[pos[k]])
      && (forall k, j :: 0 <= k < j < |pos| ==> pos[k] < pos[j])
    ensures forall i :: 0 <= i < |fs| && fs[i].value.Some? ==> i in Positions(fs)
  {
    if fs != [] {
      var init := fs[..|fs| - 1];
      DefinedInOrder(init);
      assert forall i :: 0 <= i < |init| ==> init[i] == fs[i];
    }
  }

  /** The placeholder `$k` of the `k`-th parameter. */
  function Placeholder(k: nat): string {
    "$" + NatToString(k)
  }

  /** Different parameters have different placeholders. */
  lemma PlaceholdersDistinct(k: nat, j: nat)
    requires k != j
    ensures Placeholder(k) != Placeholder(j)
  {
    NatToStringRoundTrip(k);
    NatToStringRoundTrip(j);
    assert Placeholder(k)[1..] == NatToString(k);
    assert Placeholder(j)[1..] == NatToString(j);
  }

  /** `column = $k` */
  function Clause(column: string, k: nat): string {
    column + " = " + Placeholder(k)
  }

  /** The SET clauses of the defined fields, numbered from 1. */
  function Clauses(defined: seq<Field>): (r: seq<string>)
    ensures |r| == |defined|
  {
    if defined == [] then []
    else Clauses(defined[..|defined| - 1]) + [Clause(defined[|defined| - 1].column, |defined|)]
  }

  /** The `k`-th clause (from 0) sets the `k`-th defined column from parameter
      `k + 1`. */
  lemma {:induction false} ClausesNumbered(defined: seq<Field>)
    ensures forall k :: 0 <= k < |defined| ==> Clauses(defined)[k] == Clause(defined[k].column, k + 1)
  {
    if defined != [] {
      ClausesNumbered(defined[..|defined| - 1]);
    }
  }

  /** The parameter values of the defined fields, in order. */
  function DefinedValues(fs: seq<Field>): (r: seq<Json>)
    ensures |r| == |Defined(fs)|
  {
    if fs == [] then []
    else DefinedValues(fs[..|fs| - 1]) + (if fs[|fs| - 1].value.Some? then [fs[|fs| - 1].value.value] else [])
  }

  /** Each parameter value is the value of the defined field at its place. */
  lemma {:induction false} DefinedValuesMatch(fs: seq<Field>)
    ensures forall k :: 0 <= k < |Defined(fs)| ==>
      Defined(fs)[k].value.Some? && DefinedValues(fs)[k] == Defined(fs)[k].value.value
  {
    if fs != [] {
      DefinedValuesMatch(fs[..|fs| - 1]);
    }
  }

  /** What `updateProject` does with the database: an UPDATE with its
      parameter values, or, when no field is defined, `getProjectById`. */
  datatype Statement =
    | Update(sql: string, values: seq<Json>)
    | Delegate(id: string)

  /** The statement `updateProject(id, d)` issues. */
  function UpdateStatement(id: string, d: UpdateRequest): Statement {
    var defined := Defined(Fields(d));
    if defined == [] then Delegate(id)
    else Update(
      "UPDATE projects SET " + Join(Clauses(defined), ", ") + " WHERE id = " + Placeholder(|defined| + 1) + " RETURNING *",
      DefinedValues(Fields(d)) + [JStr(id)])
  }

  /** With no defined field the service reads the project instead, and only
      then. */
  lemma DelegatesWhenNothingDefined(id: string, d: UpdateRequest)
    ensures UpdateStatement(id, d) == Delegate(id) <==> forall i :: 0 <= i < 9 ==> Fields(d)[i].value.None?
  {
    NoneDefinedIff(Fields(d));
  }

  /** No field is kept exactly when every value is `undefined`. */
  lemma {:induction false} NoneDefinedIff(fs: seq<Field>)
    ensures Defined(fs) == [] <==> forall i :: 0 <= i < |fs| ==> fs[i].value.None?
  {
    if fs != [] {
      var init := fs[..|fs| - 1];
      NoneDefinedIff(init);
      assert forall i :: 0 <= i < |init| ==> init[i] == fs[i];
    }
  }

  /** A defined first field is the first one kept, with the first value. */
  lemma {:induction false} FirstDefinedFirst(fs: seq<Field>)
    requires fs != [] && fs[0].value.Some?
    ensures Defined(fs) != [] && Defined(fs)[0] == fs[0] && DefinedValues(fs)[0] == fs[0].value.value
  {
    if |fs| > 1 {
      var init := fs[..|fs| - 1];
      FirstDefinedFirst(init);
    }
  }

  /** The parameters of an UPDATE are the defined fields' values followed
      by the id, which the statement matches under the next placeholder. */
  lemma UpdateIdLast(id: string, d: UpdateRequest)
    ensures var s := UpdateStatement(id, d);
      var defined := Defined(Fields(d));
      s.Update? ==>
        && |s.values| == |defined| + 1
        && s.values[|defined|] == JStr(id)
        && EndsWith(s.sql, " WHERE id = " + Placeholder(|defined| + 1) + " RETURNING *")
  {
    var defined := Defined(Fields(d));
    var s := UpdateStatement(id, d);
    if s.Update? {
      var tail := " WHERE id = " + Placeholder(|defined| + 1) + " RETURNING *";
      var head := "UPDATE projects SET " + Join(Clauses(defined), ", ");
      assert s.sql == head + tail;
      assert s.sql[|s.sql| - |tail|..] == tail;
    }
  }

  /** Every defined field, `null` and `''` included, gets the clause
      `column = $k` at its place `k` among the defined fields, and the
      value at the same place. */
  lemma UpdateSetsEveryDefinedField(id: string, d: UpdateRequest, i: nat)
    requires i < 9 && Fields(d)[i].value.Some?
    ensures var s := UpdateStatement(id, d);
      var defined := Defined(Fields(d));
      && s.Update?
      && (exists k :: 0 <= k < |defined| && Clauses(defined)[k] == Clause(Fields(d)[i].column, k + 1)
            && s.values[k] == Fields(d)[i].value.value)
  {
    var fs := Fields(d);
    var defined := Defined(fs);
    DefinedInOrder(fs);
    ClausesNumbered(defined);
    var pos := Positions(fs);
    var k :| 0 <= k < |pos| && pos[k] == i;
    assert defined[k] == fs[i];
    DefinedValuesMatch(fs);
    assert UpdateStatement(id, d).values[k] == DefinedValues(fs)[k];
  }

  /** A request that sets the name to `null` or to `''` still updates it
      first, as `name = $1`. */
  lemma NullOrEmptyNameIsSet(id: string, d: UpdateRequest)
    requires d.name == Some(JNull) || d.name == Some(JStr(""))
    ensures UpdateStatement(id, d).Update?
    ensures Clauses(Defined(Fields(d)))[0] == "name = $1"
    ensures UpdateStatement(id, d).values[0] == d.name.value
  {
    var fs := Fields(d);
    FirstDefinedFirst(fs);
    ClausesNumbered(Defined(fs));
    assert NatToString(1) == "1";
  }

  /** The state of the builder after the fields `fs`: one clause and one value
      per defined field and the next parameter number. */
  predicate Built(fs: seq<Field>, updates: seq<string>, values: seq<Json>, paramIndex: nat) {
    && updates == Clauses(Defined(fs))
    && values == DefinedValues(fs)
    && paramIndex == |Defined(fs)| + 1
  }

  /** One more field adds its clause and value when it is defined, and
      nothing otherwise. */
  lemma BuiltStep(fs: seq<Field>, f: Field)
    ensures f.value.None? ==> Defined(fs + [f]) == Defined(fs)
    ensures f.value.Some? ==>
      && |Defined(fs + [f])| == |Defined(fs)| + 1
      && Clauses(Defined(fs + [f])) == Clauses(Defined(fs)) + [Clause(f.column, |Defined(fs)| + 1)]
      && DefinedValues(fs + [f]) == DefinedValues(fs) + [f.value.value]
  {
    var d := Defined(fs);
    assert (fs + [f])[..|fs|] == fs;
    if f.value.Some? {
      assert Defined(fs + [f]) == d + [f];
      assert (d + [f])[..|d|] == d;
    } else {
      assert Defined(fs + [f]) == d + [];
    }
  }

  /** One `if (data.x !== undefined)` block of `updateProject`: the `k`-th
      field of the request. */
  method AddIfDefined(ghost d: UpdateRequest, ghost k: nat, updates: seq<string>, values: seq<Json>, paramIndex: nat, f: Field)
    returns (updates': seq<string>, values': seq<Json>, paramIndex': nat)
    requires k < 9 && f == Fields(d)[k]
    requires Built(Fields(d)[..k], updates, values, paramIndex)
    ensures Built(Fields(d)[..k + 1], updates', values', paramIndex')
  {
    assert Fields(d)[..k + 1] == Fields(d)[..k] + [f];
    BuiltStep(Fields(d)[..k], f);
    updates', values', paramIndex' := updates, values, paramIndex;
    if f.value.Some? {
      updates' := updates + [Clause(f.column, paramIndex)];
      paramIndex' := paramIndex + 1;
      values' := values + [f.value.value];
    }
  }

  /** Once all nine fields are in, the statement follows from the builder's
      state. */
  lemma BuiltStatement(id: string, d: UpdateRequest, updates: seq<string>, values: seq<Json>, paramIndex: nat)
    requires Built(Fields(d), updates, values, paramIndex)
    ensures UpdateStatement(id, d)
      == if |updates| == 0 then Delegate(id)
         else Update("UPDATE projects SET " + Join(updates, ", ") + " WHERE id = " + Placeholder(paramIndex) + " RETURNING *",
                     values + [JStr(id)])
  {
  }

  /** `updateProject`: the nine `!== undefined` tests, taken in the order of
      the field table, then the delegation or the UPDATE with the id as its
      last parameter. */
  method BuildUpdate(id: string, d: UpdateRequest) returns (s: Statement)
    ensures s == UpdateStatement(id, d)
  {
    var updates: seq<string> := [];
    var values: seq<Json> := [];
    var paramIndex: nat := 1;
    var fields := Fields(d);
    for k := 0 to |fields|
      invariant Built(fields[..k], updates, values, paramIndex)
    {
      updates, values, paramIndex := AddIfDefined(d, k, updates, values, paramIndex, fields[k]);
    }
    assert Fields(d)[..9] == Fields(d);
    BuiltStatement(id, d, updates, values, paramIndex);

    if |updates| == 0 {
      return Delegate(id);
    }
    values := values + [JStr(id)];
    s := Update("UPDATE projects SET " + Join(updates, ", ") + " WHERE id = " + Placeholder(paramIndex) + " RETURNING *", values);
  }

  // ---------------------------------------------------------------------------
  // createProject

  datatype CreateRequest = CreateRequest(
    name: Option<Json>,
    description: Option<Json>,
    projectType: Option<Json>,
    html: Option<Json>,
    css: Option<Json>,
    js: Option<Json>,
    requirements: Option<Json>,
    template: Option<Json>)

  /** `value || fallback` */
  function OrElse(o: Option<Json>, fallback: Json): (r: Json)
    ensures TruthyOpt(o) ==> r == o.value
    ensures !TruthyOpt(o) ==> r == fallback
  {
    if TruthyOpt(o) then o.value else fallback
  }

  /** A parameter as bound: `undefined` binds as NULL. */
  function Param(o: Option<Json>): (r: Json)
    ensures o.Some? ==> r == o.value
    ensures o.None? ==> r == JNull
  {
    if o.Some? then o.value else JNull
  }

  /** The name of a project created without one; the date is rendered by the
      caller's locale. */
  function UntitledName(dateLabel: string): string {
    "Untitled Project - " + dateLabel
  }

  /** The eight parameters of the INSERT of `createProject`, in column order
      name, description, type, html, css, js, requirements, template. */
  function InsertValues(data: CreateRequest, dateLabel: string): (r: seq<Json>)
    ensures |r| == 8
  {
    [OrElse(data.name, JStr(UntitledName(dateLabel))),
     Param(data.description),
     OrElse(data.projectType, JStr("prototype")),
     OrElse(data.html, JStr("")),
     OrElse(data.css, JStr("")),
     OrElse(data.js, JStr("")),
     OrElse(data.requirements, JNull),
     Param(data.template)]
  }

  /** A missing or falsy name, type, code part or requirements takes its
      default — the dated untitled name, 'prototype', '' and NULL — and a
      truthy one is kept; description and template pass as given. */
  lemma CreateDefaults(data: CreateRequest, dateLabel: string)
    ensures var r := InsertValues(data, dateLabel);
      && (!TruthyOpt(data.name) ==> r[0] == JStr(UntitledName(dateLabel)))
      && (!TruthyOpt(data.projectType) ==> r[2] == JStr("prototype"))
      && (!TruthyOpt(data.html) ==> r[3] == JStr(""))
      && (!TruthyOpt(data.css) ==> r[4] == JStr(""))
      && (!TruthyOpt(data.js) ==> r[5] == JStr(""))
      && (!TruthyOpt(data.requirements) ==> r[6] == JNull)
    ensures var r := InsertValues(data, dateLabel);
      && (TruthyOpt(data.name) ==> r[0] == data.name.value)
      && (TruthyOpt(data.projectType) ==> r[2] == data.projectType.value)
      && (TruthyOpt(data.html) ==> r[3] == data.html.value)
      && (TruthyOpt(data.css) ==> r[4] == data.css.value)
      && (TruthyOpt(data.js) ==> r[5] == data.js.value)
      && (TruthyOpt(data.requirements) ==> r[6] == data.requirements.value)
    ensures var r := InsertValues(data, dateLabel);
      (data.description.Some? ==> r[1] == data.description.value) && (data.template.Some? ==> r[7] == data.template.value)
  {
  }

  // ---------------------------------------------------------------------------
  // duplicateProject

  /** A row of the `projects` table, with the columns a copy reads. */
  datatype Project = Project(
    id: string,
    name: string,
    description: Json,
    html: string,
    css: string,
    js: string,
    template: Json,
    tags: Json)

  /** `getProjectById`: the row with that id, if any. */
  function ProjectById(rows: seq<Project>, id: string): (r: Option<Project>)
    ensures r.Some? ==> r.value in rows && r.value.id == id
    ensures r.None? ==> forall p :: p in rows ==> p.id != id
  {
    if rows == [] then None else if rows[0].id == id then Some(rows[0]) else ProjectById(rows[1..], id)
  }

  /** The columns of the copy's INSERT. */
  datatype CopyRow = CopyRow(
    name: string,
    description: Json,
    html: string,
    css: string,
    js: string,
    template: Json,
    tags: Json)

  /** `duplicateProject`: no copy of a missing project; otherwise the row to
      insert. */
  function DuplicateRow(rows: seq<Project>, id: string): Option<CopyRow> {
    match ProjectById(rows, id)
    case None => None
    case Some(original) =>
      Some(CopyRow(original.name + " (Copy)", original.description, original.html, original.css, original.js,
                   original.template, original.tags))
  }

  /** A copy exists exactly when the original does; it is named
      "<name> (Copy)" and carries the original's description, code, template
      and tags. */
  lemma DuplicateNamesCopy(rows: seq<Project>, id: string)
    ensures DuplicateRow(rows, id).None? <==> forall p :: p in rows ==> p.id != id
    ensures DuplicateRow(rows, id).Some? ==>
      exists original :: original in rows && original.id == id
        && var c := DuplicateRow(rows, id).value;
        && c.name == original.name + " (Copy)"
        && EndsWith(c.name, " (Copy)")
        && c.description == original.description && c.template == original.template && c.tags == original.tags
        && c.html == original.html && c.css == original.css && c.js == original.js
  {
    var found := ProjectById(rows, id);
    if found.Some? {
      var c := DuplicateRow(rows, id).value;
      assert c.name[|c.name| - 7..] == " (Copy)";
    }
  }
}
