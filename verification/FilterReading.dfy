/** What filter JSON means, read from the JSON itself: the three-valued truth of a
    filter on a row, from the stored cells, equality, the value order and NULL.
    Nothing here plans anything. */
module FilterReading {
  import opened Values
  import opened Database
  import opened Ir
  import JsonAccess
  import opened Planner
  import opened Meaning
  import opened SessionNames
  import JsonText

  /** Where a filter is read: the catalogue, the role's session, whether it is a
      permission's filter, and the tables. */
  datatype Scope = Scope(md: Metadata, s: Session, perm: bool, db: Db)

  // ----- three-valued truth -----

  /** TRUE if all are, FALSE if some is. */
  ghost function All3(ts: seq<Tri>): Tri {
    if forall i :: 0 <= i < |ts| ==> ts[i].True? then True
    else if exists i :: 0 <= i < |ts| && ts[i].False? then False
    else Unknown
  }

  /** TRUE if some is, FALSE if all are. */
  ghost function Any3(ts: seq<Tri>): Tri {
    if exists i :: 0 <= i < |ts| && ts[i].True? then True
    else if forall i :: 0 <= i < |ts| ==> ts[i].False? then False
    else Unknown
  }

  function Equal(l: Value, r: Value): Tri {
    if l.Null? || r.Null? then Unknown else Truth(l == r)
  }

  /** `l` comes after `r` in the order of values. */
  function After(eng: Engine, l: Value, r: Value): Tri {
    if l.Null? || r.Null? then Unknown else Truth(eng.less(r, l))
  }

  function AfterOrEqual(eng: Engine, l: Value, r: Value): Tri {
    if l.Null? || r.Null? then Unknown else Truth(l == r || eng.less(r, l))
  }

  /** An operator that Postgres decides by itself. */
  function Decided(eng: Engine, symbol: string, l: Value, r: Value): Tri {
    if l.Null? || r.Null? then Unknown else eng.named(symbol, l, r)
  }

  // ----- literals -----

  /** NULL and booleans are themselves, arrays go by their JSON text, and so do
      objects unless the column is geometric; the rest is cast as it is. */
  function TypedLiteral(eng: Engine, v: Value, pgType: string): Value {
    match v
    case Null => Null
    case Bool(b) => Bool(b)
    case Arr(_) => eng.cast(Text(JsonText.Serialized(v)), pgType)
    case Obj(_) =>
      if pgType == "geometry" || pgType == "geography" then eng.cast(v, pgType)
      else eng.cast(Text(JsonText.Serialized(v)), pgType)
    case _ => eng.cast(v, pgType)
  }

  // ----- operators -----

  /** Operators are written `_op` or `$op`. */
  function Bare(raw: string): string {
    if raw != "" && (raw[0] == '_' || raw[0] == '$') then raw[1..] else ""
  }

  /** The operators left to Postgres. */
  function Symbol(op: string): string {
    match op
    case "like" => "LIKE"
    case "nlike" => "NOT LIKE"
    case "ilike" => "ILIKE"
    case "nilike" => "NOT ILIKE"
    case "similar" => "SIMILAR TO"
    case "nsimilar" => "NOT SIMILAR TO"
    case "regex" => "~"
    case "iregex" => "~*"
    case "nregex" => "!~"
    case "niregex" => "!~*"
    case _ => ""
  }

  /** A list operand: an array, or text that holds one. */
  function ListItems(v: Value, md: Metadata): seq<Value> {
    if v.Arr? then v.items
    else if v.Text? && md.arrayLiteral(v.s).Some? then md.arrayLiteral(v.s).value
    else []
  }

  ghost function ItemTruths(cell: Value, items: seq<Value>, eng: Engine, pgType: string): (ts: seq<Tri>)
    ensures |ts| == |items| && forall i :: 0 <= i < |items| ==> ts[i] == Equal(cell, TypedLiteral(eng, items[i], pgType))
  {
    seq(|items|, i requires 0 <= i < |items| => Equal(cell, TypedLiteral(eng, items[i], pgType)))
  }

  /** The target of the first relationship of that name, object relationships first. */
  ghost predicate Leads(rels: seq<Rel>, name: string, target: Option<(Table, Join)>) {
    exists i :: 0 <= i < |rels| && rels[i].name == name && rels[i].target == target && forall j :: 0 <= j < i ==> rels[j].name != name
  }

  ghost predicate Unnamed(rels: seq<Rel>, name: string) {
    forall i :: 0 <= i < |rels| ==> rels[i].name != name
  }

  ghost predicate LeadsTo(entry: TableEntry, name: string, t: Table, join: Join) {
    Leads(entry.objectRels, name, Some((t, join))) || (Unnamed(entry.objectRels, name) && Leads(entry.arrayRels, name, Some((t, join))))
  }

  /** Where a relationship of the table leads. */
  ghost function Target(entry: TableEntry, name: string): (r: Option<(Table, Join)>)
    ensures r.Some? ==> LeadsTo(entry, name, r.value.0, r.value.1)
    ensures r.None? ==> forall t, join :: !LeadsTo(entry, name, t, join)
  {
    if exists t, join :: LeadsTo(entry, name, t, join) then
      var t, join :| LeadsTo(entry, name, t, join);
      Some((t, join))
    else None
  }

  /** What a column comparison compares with: a column of the row, of the root row
      behind `$`, or of the first joined row behind a relationship. */
  ghost function OperandCell(operand: Value, ctx: TableCtx, db: Db, row: Row, root: Row): Value {
    match operand
    case Text(c) => Get(row, c)
    case Arr(items) =>
      if |items| == 1 && items[0].Text? then Get(row, items[0].s)
      else if |items| == 2 && items[0].Text? && items[1].Text? then
        if items[0].s == "$" then Get(root, items[1].s)
        else
          var target := Target(ctx.entry, items[0].s);
          if target.None? then Error else FirstColumn(JoinedRows(db, target.value.0, target.value.1, row), items[1].s)
      else Error
    case _ => Error
  }

  /** One operator on a cell. */
  ghost function OpReads(raw: string, v: Value, cell: Value, pgType: string, ctx: TableCtx, q: Scope, row: Row, root: Row): Tri {
    var op, eng := Bare(raw), q.db.engine;
    if ComparesColumns(op) then OperandReads(op, eng, cell, OperandCell(v, ctx, q.db, row, root))
    else if Symbol(op) != "" then Decided(eng, Symbol(op), cell, TypedLiteral(eng, v, pgType))
    else ValueReads(op, v, cell, pgType, eng, q.md)
  }

  ghost function ValueReads(op: string, v: Value, cell: Value, pgType: string, eng: Engine, md: Metadata): Tri {
    var literal := TypedLiteral(eng, v, pgType);
    match op
    case "eq" => Equal(cell, literal)
    case "neq" => Not3(Equal(cell, literal))
    case "ne" => Not3(Equal(cell, literal))
    case "gt" => After(eng, cell, literal)
    case "lt" => After(eng, literal, cell)
    case "gte" => AfterOrEqual(eng, cell, literal)
    case "lte" => AfterOrEqual(eng, literal, cell)
    case "in" => Any3(ItemTruths(cell, ListItems(v, md), eng, pgType))
    case "nin" => Not3(Any3(ItemTruths(cell, ListItems(v, md), eng, pgType)))
    case "is_null" => Truth(cell.Null? <==> v == Bool(true))
    case "has_key" => Decided(eng, "?", cell, TypedLiteral(eng, v, "text"))
    case "contains" => Decided(eng, "@>", cell, TypedLiteral(eng, v, "jsonb"))
    case "contained_in" => Decided(eng, "<@", cell, TypedLiteral(eng, v, "jsonb"))
    case _ => Unknown
  }

  predicate ComparesColumns(op: string) {
    op == "ceq" || op == "cne" || op == "cneq" || op == "cgt" || op == "clt" || op == "cgte" || op == "clte"
  }

  function OperandReads(op: string, eng: Engine, cell: Value, operand: Value): Tri {
    match op
    case "ceq" => Equal(cell, operand)
    case "cne" => Not3(Equal(cell, operand))
    case "cneq" => Not3(Equal(cell, operand))
    case "cgt" => After(eng, cell, operand)
    case "clt" => After(eng, operand, cell)
    case "cgte" => AfterOrEqual(eng, cell, operand)
    case _ => AfterOrEqual(eng, operand, cell)
  }

  ghost function OpTruths(ops: seq<(string, Value)>, cell: Value, pgType: string, ctx: TableCtx, q: Scope, row: Row, root: Row): (ts: seq<Tri>)
    ensures |ts| == |ops| && forall i :: 0 <= i < |ops| ==> ts[i] == OpReads(ops[i].0, ops[i].1, cell, pgType, ctx, q, row, root)
  {
    seq(|ops|, i requires 0 <= i < |ops| => OpReads(ops[i].0, ops[i].1, cell, pgType, ctx, q, row, root))
  }

  /** All operators of a column; a bare value stands for equality. */
  ghost function ColumnReads(sub: Value, cell: Value, pgType: string, ctx: TableCtx, q: Scope, row: Row, root: Row): Tri {
    if sub.Obj? then All3(OpTruths(sub.fields, cell, pgType, ctx, q, row, root)) else Equal(cell, TypedLiteral(q.db.engine, sub, pgType))
  }

  // ----- filters -----

  /** A key that names a column: any column in a permission's filter, a granted one
      in a user's. */
  ghost predicate IsColumn(ctx: TableCtx, key: string, perm: bool) {
    key in ctx.entry.columns &&
    (perm || ctx.perms == [] || exists i :: 0 <= i < |ctx.perms| && (ctx.perms[i].columns.AllColumns? || key in ctx.perms[i].columns.names))
  }

  /** The table as the filter meets it behind a relationship or `_exists`. */
  function TableAt(t: Table, q: Scope): TableCtx
    requires t in q.md.tables
  {
    TableCtx(t, q.md.tables[t], if q.perm then [] else RoleSelectPerms(q.md.tables[t], q.s))
  }

  /** A table in JSON: a name in the schema `public`, or schema and name. */
  function NamedTable(v: Value): Table {
    if v.Text? then Table("public", v.s)
    else
      var schema, name := JsonAccess.Member(v, "schema"), JsonAccess.Member(v, "name");
      if schema.Some? && schema.value.Text? && name.Some? && name.value.Text? then Table(schema.value.s, name.value.s) else Table("", "")
  }

  ghost function Reads(v: Value, ctx: TableCtx, q: Scope, row: Row, root: Row): Tri
    decreases if q.perm then 0 else 3, v, 2
  {
    if v.Obj? then All3(FieldTruths(v.fields, ctx, q, row, root)) else Unknown
  }

  ghost function FieldTruths(fields: seq<(string, Value)>, ctx: TableCtx, q: Scope, row: Row, root: Row): (ts: seq<Tri>)
    ensures |ts| == |fields| && forall i :: 0 <= i < |fields| ==> ts[i] == FieldReads(fields[i], ctx, q, row, root)
    decreases if q.perm then 0 else 3, fields, 1
  {
    seq(|fields|, i requires 0 <= i < |fields| => FieldReads(fields[i], ctx, q, row, root))
  }

  ghost function ItemReads(items: seq<Value>, ctx: TableCtx, q: Scope, row: Row, root: Row): (ts: seq<Tri>)
    ensures |ts| == |items| && forall i :: 0 <= i < |items| ==> ts[i] == Reads(items[i], ctx, q, row, root)
    decreases if q.perm then 0 else 3, items, 0
  {
    seq(|items|, i requires 0 <= i < |items| => Reads(items[i], ctx, q, row, root))
  }

  /** One key: a connective, `_exists`, a column or a relationship. */
  ghost function FieldReads(field: (string, Value), ctx: TableCtx, q: Scope, row: Row, root: Row): Tri
    decreases if q.perm then 0 else 3, field, 0
  {
    var (key, sub) := field;
    if key == "_and" || key == "$and" then if sub.Arr? then All3(ItemReads(sub.items, ctx, q, row, root)) else Unknown
    else if key == "_or" || key == "$or" then if sub.Arr? then Any3(ItemReads(sub.items, ctx, q, row, root)) else Unknown
    else if key == "_not" || key == "$not" then Not3(Reads(sub, ctx, q, row, root))
    else if key == "_exists" then ExistsReads(sub, q)
    else if IsColumn(ctx, key, q.perm) then ColumnReads(sub, Get(row, key), ctx.entry.columns[key], ctx, q, row, root)
    else RelatedReads(sub, Target(ctx.entry, key), q, row, root)
  }

  /** Some row of the table satisfies `_where`, with itself as the root. */
  ghost function ExistsReads(sub: Value, q: Scope): Tri
    decreases if q.perm then 0 else 3, sub, 3
  {
    var table, where := JsonAccess.Member(sub, "_table"), JsonAccess.Member(sub, "_where");
    if table.Some? && where.Some? && NamedTable(table.value) in q.md.tables then
      var t := NamedTable(table.value);
      var rows := Rows(q.db, t);
      Truth(exists i :: 0 <= i < |rows| && Reads(where.value, TableAt(t, q), q, rows[i], rows[i]).True?)
    else Unknown
  }

  /** Some joined row satisfies the inner filter; for a user's filter, one that also
      passes some permission of the role, read under the same root. */
  ghost function RelatedReads(sub: Value, target: Option<(Table, Join)>, q: Scope, row: Row, root: Row): Tri
    decreases if q.perm then 0 else 3, sub, 3
  {
    if target.Some? && target.value.0 in q.md.tables then
      var rows := Rows(q.db, target.value.0);
      var remote := TableAt(target.value.0, q);
      Truth(exists i :: 0 <= i < |rows| && Joined(target.value.1, row, rows[i]) && Reads(sub, remote, q, rows[i], root).True? &&
                        (q.perm || SomePermissionReads(remote, q, rows[i], root)))
    else Unknown
  }

  /** Some permission has no filter, or one that is TRUE under the session. */
  ghost predicate SomePermissionReads(ctx: TableCtx, q: Scope, row: Row, root: Row)
    requires !q.perm
    decreases 2
  {
    exists i :: 0 <= i < |ctx.perms| && PermissionReads(ctx.perms[i], ctx, q, row, root)
  }

  ghost predicate PermissionReads(p: SelectPermission, ctx: TableCtx, q: Scope, row: Row, root: Row)
    requires !q.perm
    decreases 1
  {
    p.filter == Null || p.filter == Obj([]) ||
    Reads(Substituted(p.filter, ctx.(perms := []), q.(perm := true)), ctx.(perms := []), q.(perm := true), row, root).True?
  }

  // ----- session variables -----

  ghost function Resolved(v: Value, q: Scope): Value {
    if q.perm && v.Text? && Refers(v.s) && exists x :: x in q.s.vars && Names(v.s, x) then
      var x :| x in q.s.vars && Names(v.s, x);
      Text(q.s.vars[x])
    else v
  }

  /** The filter with every session reference at an operand replaced by the value
      of its variable; columns named in `_c*` comparisons, tables and the items of
      lists are not operands. A user's filter has no references. */
  ghost function Substituted(v: Value, ctx: TableCtx, q: Scope): (r: Value)
    ensures r.Obj? <==> v.Obj?
    decreases v, 2
  {
    if v.Obj? then Obj(SubstitutedFields(v.fields, ctx, q)) else v
  }

  ghost function SubstitutedFields(fields: seq<(string, Value)>, ctx: TableCtx, q: Scope): (r: seq<(string, Value)>)
    ensures |r| == |fields| && forall i :: 0 <= i < |fields| ==> r[i] == (fields[i].0, SubstitutedUnder(fields[i], ctx, q))
    decreases fields, 1
  {
    seq(|fields|, i requires 0 <= i < |fields| => (fields[i].0, SubstitutedUnder(fields[i], ctx, q)))
  }

  ghost function SubstitutedItems(items: seq<Value>, ctx: TableCtx, q: Scope): (r: seq<Value>)
    ensures |r| == |items| && forall i :: 0 <= i < |items| ==> r[i] == Substituted(items[i], ctx, q)
    decreases items, 0
  {
    seq(|items|, i requires 0 <= i < |items| => Substituted(items[i], ctx, q))
  }

  ghost function SubstitutedUnder(field: (string, Value), ctx: TableCtx, q: Scope): Value
    decreases field, 0
  {
    var (key, sub) := field;
    if key == "_and" || key == "$and" || key == "_or" || key == "$or" then
      if sub.Arr? then Arr(SubstitutedItems(sub.items, ctx, q)) else sub
    else if key == "_not" || key == "$not" then Substituted(sub, ctx, q)
    else if key == "_exists" then SubstitutedExists(sub, q)
    else if IsColumn(ctx, key, q.perm) then SubstitutedOps(sub, q)
    else
      var target := Target(ctx.entry, key);
      if target.Some? && target.value.0 in q.md.tables then Substituted(sub, TableAt(target.value.0, q), q) else sub
  }

  /** What an operator compares with: its operand, resolved unless it names columns. */
  ghost function Operand(raw: string, v: Value, q: Scope): Value {
    if ComparesColumns(Bare(raw)) then v else Resolved(v, q)
  }

  ghost function SubstitutedOps(sub: Value, q: Scope): (r: Value)
    ensures r.Obj? <==> sub.Obj?
    ensures sub.Obj? ==> |r.fields| == |sub.fields| && forall i :: 0 <= i < |sub.fields| ==>
      r.fields[i] == (sub.fields[i].0, Operand(sub.fields[i].0, sub.fields[i].1, q))
  {
    if sub.Obj? then
      Obj(seq(|sub.fields|, i requires 0 <= i < |sub.fields| =>
        (sub.fields[i].0, Operand(sub.fields[i].0, sub.fields[i].1, q))))
    else Resolved(sub, q)
  }

  /** Only `_where` is a filter. */
  ghost function SubstitutedExists(sub: Value, q: Scope): Value
    decreases sub, 3
  {
    var table := JsonAccess.Member(sub, "_table");
    if sub.Obj? && table.Some? && NamedTable(table.value) in q.md.tables then
      Obj(seq(|sub.fields|, i requires 0 <= i < |sub.fields| =>
        (sub.fields[i].0,
         if sub.fields[i].0 == "_where" then Substituted(sub.fields[i].1, TableAt(NamedTable(table.value), q), q) else sub.fields[i].1)))
    else sub
  }
}
