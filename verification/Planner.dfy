/** Permission-aware planning (crates/schema): a role's permissions on a table,
    bool_exp JSON, and the combined row filter of a possibly inherited role. */
module Planner {
  import opened Values
  import opened Database
  import opened Ir
  import opened JsonAccess
  import Roles

  datatype PlanError = Invalid | MissingSessionVariable

  datatype Columns = AllColumns | Listed(names: seq<string>)

  datatype SelectPermission = SelectPermission(columns: Columns, filter: Value, limit: Option<nat>, allowAggregations: bool)

  /** A relationship; `target` is None when its using clause does not resolve. */
  datatype Rel = Rel(name: string, target: Option<(Table, Join)>)

  datatype TableEntry = TableEntry(
    typeName: string,
    columns: map<string, string>,
    primaryKey: seq<string>,
    objectRels: seq<Rel>,
    arrayRels: seq<Rel>,
    selectPermissions: seq<Roles.PermissionEntry<SelectPermission>>)

  /** Session: the role, its expansion (`Roles.ExpandRole`) and its variables. */
  datatype Session = Session(role: string, parents: seq<string>, vars: map<string, string>)

  /** Tracked tables; `arrayLiteral` reads "[1,2]" and "{a,b}". */
  datatype Metadata = Metadata(tables: map<Table, TableEntry>, arrayLiteral: string -> Option<seq<Value>>)

  /** No permissions at all marks a permission-filter context. */
  datatype TableCtx = TableCtx(table: Table, entry: TableEntry, perms: seq<SelectPermission>)

  // ----- permissions of a role on a table -----

  function FindPerm(list: seq<Roles.PermissionEntry<SelectPermission>>, role: string): Option<SelectPermission> {
    if list == [] then None
    else if list[0].role == role then Some(list[0].permission)
    else FindPerm(list[1..], role)
  }

  /** The permissions of the parents that have one, in expansion order. */
  function ParentPerms(list: seq<Roles.PermissionEntry<SelectPermission>>, parents: seq<string>): seq<SelectPermission> {
    if parents == [] then []
    else
      var init := ParentPerms(list, parents[..|parents| - 1]);
      var p := FindPerm(list, parents[|parents| - 1]);
      if p.Some? then init + [p.value] else init
  }

  /** A direct permission overrides the inherited combination. */
  function RoleSelectPerms(entry: TableEntry, s: Session): seq<SelectPermission> {
    var direct := FindPerm(entry.selectPermissions, s.role);
    if direct.Some? then [direct.value] else ParentPerms(entry.selectPermissions, s.parents)
  }

  function TableCtxOf(md: Metadata, t: Table, s: Session): Option<TableCtx> {
    if t !in md.tables then None
    else
      var perms := RoleSelectPerms(md.tables[t], s);
      if perms == [] then None else Some(TableCtx(t, md.tables[t], perms))
  }

  function FilterCtx(md: Metadata, t: Table): Option<TableCtx> {
    if t in md.tables then Some(TableCtx(t, md.tables[t], [])) else None
  }

  predicate Grants(p: SelectPermission, column: string) {
    p.columns.AllColumns? || column in p.columns.names
  }

  function Granting(perms: seq<SelectPermission>, column: string): seq<SelectPermission> {
    if perms == [] then []
    else
      var init := Granting(perms[..|perms| - 1], column);
      var p := perms[|perms| - 1];
      if Grants(p, column) then init + [p] else init
  }

  predicate ColumnAllowed(ctx: TableCtx, column: string) {
    column in ctx.entry.columns && (ctx.perms == [] || exists i :: 0 <= i < |ctx.perms| && Grants(ctx.perms[i], column))
  }

  /** The largest parent limit; none as soon as one parent is unlimited. */
  function PermLimit(perms: seq<SelectPermission>): Option<nat> {
    if perms == [] then None
    else
      var p := perms[|perms| - 1];
      if p.limit.None? then None
      else if |perms| == 1 then p.limit
      else
        var init := PermLimit(perms[..|perms| - 1]);
        if init.None? then None
        else Some(if init.value >= p.limit.value then init.value else p.limit.value)
  }

  // ----- JSON access and session variables -----

  /** Only permission filters may refer to session variables. */
  function ResolveSession(v: Value, s: Session, perm: bool): Result<Value, PlanError> {
    if perm && v.Text? && IsSessionRef(v.s) then
      if Lower(v.s) in s.vars then Ok(Text(s.vars[Lower(v.s)])) else Err(MissingSessionVariable)
    else Ok(v)
  }

  function TableOf(v: Value): Option<Table> {
    if v.Text? then Some(Table("public", v.s))
    else
      var schema, name := Member(v, "schema"), Member(v, "name");
      if schema.Some? && schema.value.Text? && name.Some? && name.value.Text?
      then Some(Table(schema.value.s, name.value.s)) else None
  }

  // ----- operators -----

  function FindRel(rels: seq<Rel>, name: string): Option<Rel> {
    if rels == [] then None else if rels[0].name == name then Some(rels[0]) else FindRel(rels[1..], name)
  }

  /** Object relationships are looked up before array relationships. */
  function RelTarget(entry: TableEntry, name: string): Option<(Table, Join)> {
    var obj := FindRel(entry.objectRels, name);
    if obj.Some? then obj.value.target
    else
      var arr := FindRel(entry.arrayRels, name);
      if arr.Some? then arr.value.target else None
  }

  function ColumnCompare(op: BinOp, v: Value, ctx: TableCtx): Result<CompareOp, PlanError> {
    match v
    case Text(c) => Ok(Column(op, c, false))
    case Arr(items) =>
      if exists i :: 0 <= i < |items| && !items[i].Text? then Err(Invalid)
      else if |items| == 1 then Ok(Column(op, items[0].s, false))
      else if |items| == 2 && items[0].s == "$" then Ok(Column(op, items[1].s, true))
      else if |items| == 2 then
        var target := RelTarget(ctx.entry, items[0].s);
        if target.None? then Err(Invalid)
        else Ok(ColumnRel(op, target.value.0, target.value.1, items[1].s))
      else Err(Invalid)
    case _ => Err(Invalid)
  }

  /** `_eq`, `_like`, ..: the SQL operator applied to a literal of the column's type. */
  function ScalarOp(name: string): Option<BinOp> {
    match name
    case "_eq" => Some(Eq)
    case "_neq" => Some(Neq)
    case "_ne" => Some(Neq)
    case "_gt" => Some(Gt)
    case "_lt" => Some(Lt)
    case "_gte" => Some(Gte)
    case "_lte" => Some(Lte)
    case "_like" => Some(Named("LIKE"))
    case "_nlike" => Some(Named("NOT LIKE"))
    case "_ilike" => Some(Named("ILIKE"))
    case "_nilike" => Some(Named("NOT ILIKE"))
    case "_similar" => Some(Named("SIMILAR TO"))
    case "_nsimilar" => Some(Named("NOT SIMILAR TO"))
    case "_regex" => Some(Named("~"))
    case "_iregex" => Some(Named("~*"))
    case "_nregex" => Some(Named("!~"))
    case "_niregex" => Some(Named("!~*"))
    case _ => None
  }

  function ColumnOperator(name: string): Option<BinOp> {
    match name
    case "_ceq" => Some(Eq)
    case "_cne" => Some(Neq)
    case "_cneq" => Some(Neq)
    case "_cgt" => Some(Gt)
    case "_clt" => Some(Lt)
    case "_cgte" => Some(Gte)
    case "_clte" => Some(Lte)
    case _ => None
  }

  function JsonOp(name: string): Option<(BinOp, string)> {
    match name
    case "_has_key" => Some((Named("?"), "text"))
    case "_contains" => Some((Named("@>"), "jsonb"))
    case "_contained_in" => Some((Named("<@"), "jsonb"))
    case _ => None
  }

  function ListOf(v: Value, md: Metadata, s: Session, perm: bool): Result<seq<Value>, PlanError> {
    var r := ResolveSession(v, s, perm);
    if r.Err? then Err(r.error)
    else if r.value.Arr? then Ok(r.value.items)
    else if r.value.Text? && md.arrayLiteral(r.value.s).Some? then Ok(md.arrayLiteral(r.value.s).value)
    else Err(Invalid)
  }

  /** Legacy `$op` spellings are read as `_op`. */
  function OpName(raw: string): string {
    if |raw| >= 1 && raw[0] == '$' then "_" + raw[1..] else raw
  }

  function ParseOp(raw: string, v: Value, ctx: TableCtx, md: Metadata, s: Session, perm: bool): Result<CompareOp, PlanError> {
    var name := OpName(raw);
    if ScalarOp(name).Some? then
      var r := ResolveSession(v, s, perm);
      if r.Err? then Err(r.error) else Ok(Bin(ScalarOp(name).value, r.value))
    else if ColumnOperator(name).Some? then ColumnCompare(ColumnOperator(name).value, v, ctx)
    else if JsonOp(name).Some? then
      var r := ResolveSession(v, s, perm);
      if r.Err? then Err(r.error) else Ok(BinAs(JsonOp(name).value.0, r.value, JsonOp(name).value.1))
    else if name == "_in" || name == "_nin" then
      var r := ListOf(v, md, s, perm);
      if r.Err? then Err(r.error) else Ok(if name == "_in" then In(r.value) else Nin(r.value))
    else if name == "_is_null" then
      var r := ResolveSession(v, s, perm);
      if r.Err? then Err(r.error) else Ok(IsNull(r.value.Bool? && r.value.b))
    else Err(Invalid)
  }

  function ParseOpList(ops: seq<(string, Value)>, ctx: TableCtx, md: Metadata, s: Session, perm: bool):
    Result<seq<CompareOp>, PlanError>
  {
    if ops == [] then Ok([])
    else
      var n := |ops| - 1;
      var init := ParseOpList(ops[..n], ctx, md, s, perm);
      if init.Err? then init
      else
        var last := ParseOp(ops[n].0, ops[n].1, ctx, md, s, perm);
        if last.Err? then Err(last.error) else Ok(init.value + [last.value])
  }

  /** A non-object operand is the legacy implicit `_eq`. */
  function ParseOps(v: Value, ctx: TableCtx, md: Metadata, s: Session, perm: bool): Result<seq<CompareOp>, PlanError> {
    if v.Obj? then ParseOpList(v.fields, ctx, md, s, perm)
    else
      var r := ResolveSession(v, s, perm);
      if r.Err? then Err(r.error) else Ok([Bin(Eq, r.value)])
  }

  function Compares(column: string, pgType: string, ops: seq<CompareOp>): BoolExp {
    if |ops| == 1 then Compare(column, pgType, ops[0])
    else And(seq(|ops|, i requires 0 <= i < |ops| => Compare(column, pgType, ops[i])))
  }

  // ----- boolean expressions -----

  /** Which context a bool_exp reaches through a relationship or `_exists`. */
  function RelationshipCtx(md: Metadata, t: Table, s: Session, perm: bool): Option<TableCtx> {
    if perm then FilterCtx(md, t) else TableCtxOf(md, t, s)
  }

  /** A single conjunct stands for itself. */
  function Conjoin(cs: seq<BoolExp>): BoolExp {
    if |cs| == 1 then cs[0] else And(cs)
  }

  function ParseBool(v: Value, ctx: TableCtx, md: Metadata, s: Session, perm: bool): Result<BoolExp, PlanError>
    decreases if perm then 0 else 2, v, 2
  {
    if !v.Obj? then Err(Invalid)
    else
      var cs := Conjuncts(v.fields, ctx, md, s, perm);
      if cs.Err? then Err(cs.error) else Ok(Conjoin(cs.value))
  }

  function Conjuncts(fields: seq<(string, Value)>, ctx: TableCtx, md: Metadata, s: Session, perm: bool): Result<seq<BoolExp>, PlanError>
    decreases if perm then 0 else 2, fields, 1
  {
    if fields == [] then Ok([])
    else
      var n := |fields| - 1;
      var init := Conjuncts(fields[..n], ctx, md, s, perm);
      if init.Err? then init
      else
        var last := Conjunct(fields[n], ctx, md, s, perm);
        if last.Err? then Err(last.error) else Ok(init.value + [last.value])
  }

  function ParseAll(vs: seq<Value>, ctx: TableCtx, md: Metadata, s: Session, perm: bool): Result<seq<BoolExp>, PlanError>
    decreases if perm then 0 else 2, vs, 0
  {
    if vs == [] then Ok([])
    else
      var n := |vs| - 1;
      var init := ParseAll(vs[..n], ctx, md, s, perm);
      if init.Err? then init
      else
        var last := ParseBool(vs[n], ctx, md, s, perm);
        if last.Err? then Err(last.error) else Ok(init.value + [last.value])
  }

  function Logical(key: string): string {
    if key == "$and" then "_and" else if key == "$or" then "_or" else if key == "$not" then "_not" else key
  }

  function Conjunct(field: (string, Value), ctx: TableCtx, md: Metadata, s: Session, perm: bool): Result<BoolExp, PlanError>
    decreases if perm then 0 else 2, field, 0
  {
    var (rawKey, sub) := field;
    var key := Logical(rawKey);
    if key == "_and" || key == "_or" then
      if !sub.Arr? then Err(Invalid)
      else
        var parts := ParseAll(sub.items, ctx, md, s, perm);
        if parts.Err? then Err(parts.error)
        else Ok(if key == "_and" then And(parts.value) else Or(parts.value))
    else if key == "_not" then
      var inner := ParseBool(sub, ctx, md, s, perm);
      if inner.Err? then inner else Ok(Not(inner.value))
    else if key == "_exists" then ExistsPredicate(sub, md, s, perm)
    else if key in ctx.entry.columns && (perm || ColumnAllowed(ctx, key)) then
      var ops := ParseOps(sub, ctx, md, s, perm);
      if ops.Err? then Err(ops.error) else Ok(Compares(key, ctx.entry.columns[key], ops.value))
    else
      var target := RelTarget(ctx.entry, key);
      if target.None? then Err(Invalid)
      else
        var remote := RelationshipCtx(md, target.value.0, s, perm);
        if remote.None? then Err(Invalid)
        else
          var inner := ParseBool(sub, remote.value, md, s, perm);
          if inner.Err? then inner
          else if perm then Ok(Relationship(target.value.0, target.value.1, inner.value))
          else
            // the remote table's own row filter applies too
            var filter := CombinedFilter(remote.value.perms, remote.value, md, s);
            if filter.Err? then Err(filter.error)
            else
              var p := if filter.value.None? then inner.value else And([inner.value, filter.value.value]);
              Ok(Relationship(target.value.0, target.value.1, p))
  }

  function ExistsPredicate(sub: Value, md: Metadata, s: Session, perm: bool): Result<BoolExp, PlanError>
    decreases if perm then 0 else 2, sub, 3
  {
    var table, where := Member(sub, "_table"), Member(sub, "_where");
    if table.None? || TableOf(table.value).None? || where.None? then Err(Invalid)
    else
      var t := TableOf(table.value).value;
      var remote := RelationshipCtx(md, t, s, perm);
      if remote.None? then Err(Invalid)
      else
        var inner := ParseBool(where.value, remote.value, md, s, perm);
        if inner.Err? then inner else Ok(Exists(t, inner.value))
  }

  predicate Unrestricted(p: SelectPermission) {
    p.filter.Null? || p.filter == Obj([])
  }

  /** OR of the row filters; no filter when one of them is unrestricted. */
  function CombinedFilter(perms: seq<SelectPermission>, ctx: TableCtx, md: Metadata, s: Session): Result<Option<BoolExp>, PlanError>
    decreases 1, perms, 1
  {
    if perms == [] then Ok(None)
    else
      var parts := FilterParts(perms, ctx, md, s);
      if parts.Err? then Err(parts.error)
      else if parts.value.None? then Ok(None)
      else Ok(Some(if |parts.value.value| == 1 then parts.value.value[0] else Or(parts.value.value)))
  }

  /** The parsed filters, or None once an unrestricted one is met. */
  function FilterParts(perms: seq<SelectPermission>, ctx: TableCtx, md: Metadata, s: Session): Result<Option<seq<BoolExp>>, PlanError>
    decreases 1, perms, 0
  {
    if perms == [] then Ok(Some([]))
    else
      var n := |perms| - 1;
      var init := FilterParts(perms[..n], ctx, md, s);
      if init.Err? || init.value.None? then init
      else if Unrestricted(perms[n]) then Ok(None)
      else
        var part := ParseBool(perms[n].filter, ctx.(perms := []), md, s, true);
        if part.Err? then Err(part.error) else Ok(Some(init.value.value + [part.value]))
  }
}
