/** A user's `where` cannot observe rows its role may not see: on databases that
    agree on the visible rows, every confined filter has the same value on
    every row. */
module NonInterference {
  import opened Values
  import opened Database
  import opened Ir
  import opened Planner
  import opened JsonAccess
  import opened FilterJson
  import Meaning

  type Tables = map<Table, seq<Row>>

  /** What a role may read of a table: nothing, or the rows its filter passes. */
  datatype Access = Hidden | Seen(filter: Option<BoolExp>)

  ghost function AccessOf(md: Metadata, s: Session, t: Table): Access {
    var ctx := TableCtxOf(md, t, s);
    if ctx.None? then Hidden
    else
      var f := CombinedFilter(ctx.value.perms, ctx.value, md, s);
      if f.Err? then Hidden else Seen(f.value)
  }

  /** Decided by the row alone: no other table, no root row, no function call. */
  ghost predicate RowLocal(e: BoolExp) {
    match e
    case And(es) => forall i :: 0 <= i < |es| ==> RowLocal(es[i])
    case Or(es) => forall i :: 0 <= i < |es| ==> RowLocal(es[i])
    case Not(x) => RowLocal(x)
    case Compare(_, _, op) => !op.ColumnRel? && !(op.Column? && op.fromRoot)
    case _ => false
  }

  ghost function Visible(db: Db, t: Table, filter: Option<BoolExp>): seq<Row> {
    Meaning.Matching(Rows(db, t), Meaning.NoOuter, filter, db)
  }

  /** Same engine, same visible rows in every table the role can select from. */
  ghost predicate Agree(eng: Engine, t1: Tables, t2: Tables, access: Table -> Access) {
    forall t :: access(t).Seen? ==>
      Visible(Db(t1, eng), t, access(t).filter) == Visible(Db(t2, eng), t, access(t).filter)
  }

  ghost predicate LocalFilters(access: Table -> Access) {
    forall t :: access(t).Seen? && access(t).filter.Some? ==> RowLocal(access(t).filter.value)
  }

  /** Every table read is open to the role or read through the role's filter. */
  ghost predicate Guarded(e: BoolExp, access: Table -> Access) {
    match e
    case And(es) => forall i :: 0 <= i < |es| ==> Guarded(es[i], access)
    case Or(es) => forall i :: 0 <= i < |es| ==> Guarded(es[i], access)
    case Not(x) => Guarded(x, access)
    case Compare(_, _, op) => op.ColumnRel? ==> access(op.table) == Seen(None)
    case Relationship(t, _, p) =>
      access(t).Seen? &&
      if access(t).filter.None? then Guarded(p, access)
      else p.And? && |p.exps| == 2 && p.exps[1] == access(t).filter.value && Guarded(p.exps[0], access)
    case Exists(t, p) => access(t) == Seen(None) && Guarded(p, access)
    case _ => false
  }

  lemma {:induction false} RowLocalStable(e: BoolExp, d1: Db, d2: Db, row: Row, root1: Row, root2: Row)
    requires RowLocal(e) && d1.engine == d2.engine
    ensures Meaning.Holds(e, d1, row, root1) == Meaning.Holds(e, d2, row, root2)
  {
    match e
    case And(es) =>
      forall i | 0 <= i < |es| { RowLocalStable(es[i], d1, d2, row, root1, root2); }
    case Or(es) =>
      forall i | 0 <= i < |es| { RowLocalStable(es[i], d1, d2, row, root1, root2); }
    case Not(x) => RowLocalStable(x, d1, d2, row, root1, root2);
    case Compare(_, _, _) =>
  }

  lemma VisibleMember(db: Db, t: Table, filter: Option<BoolExp>, r: Row)
    ensures r in Visible(db, t, filter) <==> r in Rows(db, t) && Meaning.Passes(filter, db, r)
  {
    var rows := Rows(db, t);
    var mask := seq(|rows|, i requires 0 <= i < |rows| => Meaning.Selected(Meaning.NoOuter, filter, db, rows[i]));
    KeepMember(rows, mask, r);
  }

  /** An open table is equal row for row. */
  lemma OpenTable(eng: Engine, t1: Tables, t2: Tables, access: Table -> Access, t: Table)
    requires Agree(eng, t1, t2, access) && access(t) == Seen(None)
    ensures Rows(Db(t1, eng), t) == Rows(Db(t2, eng), t)
  {
    AllVisible(Db(t1, eng), t);
    AllVisible(Db(t2, eng), t);
  }

  lemma AllVisible(db: Db, t: Table)
    ensures Visible(db, t, None) == Rows(db, t)
  {
    var rows := Rows(db, t);
    KeepAll(rows, seq(|rows|, i requires 0 <= i < |rows| => Meaning.Selected(Meaning.NoOuter, None, db, rows[i])));
  }

  /** Main result. */
  lemma {:induction false} FilterNonInterference(e: BoolExp, eng: Engine, t1: Tables, t2: Tables, access: Table -> Access, row: Row, root: Row)
    requires Guarded(e, access) && LocalFilters(access) && Agree(eng, t1, t2, access)
    ensures Meaning.Holds(e, Db(t1, eng), row, root) == Meaning.Holds(e, Db(t2, eng), row, root)
    decreases e, 0, 0
  {
    match e
    case And(es) =>
      forall i | 0 <= i < |es| { FilterNonInterference(es[i], eng, t1, t2, access, row, root); }
    case Or(es) =>
      forall i | 0 <= i < |es| { FilterNonInterference(es[i], eng, t1, t2, access, row, root); }
    case Not(x) => FilterNonInterference(x, eng, t1, t2, access, row, root);
    case Compare(_, _, op) =>
      if op.ColumnRel? {
        OpenTable(eng, t1, t2, access, op.table);
      }
    case Relationship(t, join, p) =>
      RelatedStable(p, t, join, eng, t1, t2, access, row, root);
      AgreeSymmetric(eng, t1, t2, access);
      RelatedStable(p, t, join, eng, t2, t1, access, row, root);
    case Exists(t, p) =>
      OpenTable(eng, t1, t2, access, t);
      var rows := Rows(Db(t1, eng), t);
      forall i | 0 <= i < |rows| { FilterNonInterference(p, eng, t1, t2, access, rows[i], rows[i]); }
  }

  lemma AgreeSymmetric(eng: Engine, t1: Tables, t2: Tables, access: Table -> Access)
    requires Agree(eng, t1, t2, access)
    ensures Agree(eng, t2, t1, access)
  {
  }

  /** A witness row in one database is visible, so it is a witness in the other. */
  lemma {:induction false} RelatedStable(p: BoolExp, t: Table, join: Join, eng: Engine, t1: Tables, t2: Tables, access: Table -> Access,
    row: Row, root: Row)
    requires Guarded(Relationship(t, join, p), access) && LocalFilters(access) && Agree(eng, t1, t2, access)
    ensures Meaning.SomeRelated(p, join, row, Rows(Db(t1, eng), t), Db(t1, eng), root) ==>
            Meaning.SomeRelated(p, join, row, Rows(Db(t2, eng), t), Db(t2, eng), root)
    decreases p, 1
  {
    var d1, d2 := Db(t1, eng), Db(t2, eng);
    var rows1, rows2 := Rows(d1, t), Rows(d2, t);
    if Meaning.SomeRelated(p, join, row, rows1, d1, root) {
      var i :| 0 <= i < |rows1| && Meaning.Joined(join, row, rows1[i]) && Meaning.Holds(p, d1, rows1[i], root).True?;
      var r := rows1[i];
      var f := access(t).filter;
      WitnessVisible(p, t, eng, t1, access, r, root);
      VisibleMember(d1, t, f, r);
      VisibleMember(d2, t, f, r);
      assert r in rows1;
      var j :| 0 <= j < |rows2| && rows2[j] == r;
      WitnessStable(p, t, eng, t1, t2, access, r, root);
      assert Meaning.Holds(p, d2, rows2[j], root).True?;
    }
  }

  lemma {:induction false} WitnessStable(p: BoolExp, t: Table, eng: Engine, t1: Tables, t2: Tables, access: Table -> Access, r: Row, root: Row)
    requires LocalFilters(access) && Agree(eng, t1, t2, access) && access(t).Seen?
    requires
      if access(t).filter.None? then Guarded(p, access)
      else p.And? && |p.exps| == 2 && p.exps[1] == access(t).filter.value && Guarded(p.exps[0], access)
    ensures Meaning.Holds(p, Db(t1, eng), r, root) == Meaning.Holds(p, Db(t2, eng), r, root)
    decreases p, 0, 1
  {
    if access(t).filter.None? {
      FilterNonInterference(p, eng, t1, t2, access, r, root);
    } else {
      FilterNonInterference(p.exps[0], eng, t1, t2, access, r, root);
      RowLocalStable(p.exps[1], Db(t1, eng), Db(t2, eng), r, root, root);
      Meaning.AndOfTwo(p, Db(t1, eng), r, root);
      Meaning.AndOfTwo(p, Db(t2, eng), r, root);
    }
  }

  lemma WitnessVisible(p: BoolExp, t: Table, eng: Engine, t1: Tables, access: Table -> Access, r: Row, root: Row)
    requires access(t).Seen? && LocalFilters(access)
    requires access(t).filter.Some? ==> p.And? && |p.exps| == 2 && p.exps[1] == access(t).filter.value
    requires Meaning.Holds(p, Db(t1, eng), r, root).True?
    ensures Meaning.Passes(access(t).filter, Db(t1, eng), r)
  {
    if access(t).filter.Some? {
      assert Meaning.Holds(p.exps[1], Db(t1, eng), r, root).True?;
      RowLocalStable(p.exps[1], Db(t1, eng), Db(t1, eng), r, root, r);
    }
  }

  // ----- the planner only produces guarded filters -----

  /** A comparison with `["rel", column]`: the related table is open. */
  ghost predicate OpenPath(v: Value, entry: TableEntry, access: Table -> Access) {
    v.Arr? && |v.items| == 2 && v.items[0].Text? && v.items[0].s != "$" && RelTarget(entry, v.items[0].s).Some? ==>
      access(RelTarget(entry, v.items[0].s).value.0) == Seen(None)
  }

  /** Column comparisons read related rows only of open tables. */
  ghost predicate ConfinedOps(sub: Value, entry: TableEntry, access: Table -> Access) {
    sub.Obj? ==> forall i :: 0 <= i < |sub.fields| && ColumnOperator(OpName(sub.fields[i].0)).Some? ==>
      OpenPath(sub.fields[i].1, entry, access)
  }

  /** The user filter reads unguarded (through `_exists` or through a comparison
      with a related column) only tables without a row filter. */
  ghost predicate Confined(v: Value, ctx: TableCtx, md: Metadata, s: Session, access: Table -> Access)
    decreases v, 1
  {
    v.Obj? ==> forall i :: 0 <= i < |v.fields| ==> ConfinedField(v.fields[i], ctx, md, s, access)
  }

  ghost predicate ConfinedField(field: (string, Value), ctx: TableCtx, md: Metadata, s: Session, access: Table -> Access)
    decreases field, 0
  {
    var (rawKey, sub) := field;
    var key := Logical(rawKey);
    if key == "_and" || key == "_or" then
      sub.Arr? ==> forall i :: 0 <= i < |sub.items| ==> Confined(sub.items[i], ctx, md, s, access)
    else if key == "_not" then Confined(sub, ctx, md, s, access)
    else if key == "_exists" then ConfinedExists(sub, md, s, access)
    else if key in ctx.entry.columns && ColumnAllowed(ctx, key) then ConfinedOps(sub, ctx.entry, access)
    else
      var target := RelTarget(ctx.entry, key);
      target.Some? && TableCtxOf(md, target.value.0, s).Some? ==>
        Confined(sub, TableCtxOf(md, target.value.0, s).value, md, s, access)
  }

  ghost predicate ConfinedExists(sub: Value, md: Metadata, s: Session, access: Table -> Access)
    decreases sub, 2
  {
    var table, where := Member(sub, "_table"), Member(sub, "_where");
    table.Some? && TableOf(table.value).Some? && where.Some? && TableCtxOf(md, TableOf(table.value).value, s).Some? ==>
      var t := TableOf(table.value).value;
      access(t) == Seen(None) && Confined(where.value, TableCtxOf(md, t, s).value, md, s, access)
  }

  lemma OpConfined(raw: string, v: Value, ctx: TableCtx, md: Metadata, s: Session, access: Table -> Access)
    requires ColumnOperator(OpName(raw)).Some? ==> OpenPath(v, ctx.entry, access)
    requires ParseOp(raw, v, ctx, md, s, false).Ok?
    ensures
      var op := ParseOp(raw, v, ctx, md, s, false).value;
      op.ColumnRel? ==> access(op.table) == Seen(None)
  {
  }

  lemma {:induction false} OpsConfined(ops: seq<(string, Value)>, ctx: TableCtx, md: Metadata, s: Session, access: Table -> Access, k: nat)
    requires forall i :: 0 <= i < |ops| && ColumnOperator(OpName(ops[i].0)).Some? ==> OpenPath(ops[i].1, ctx.entry, access)
    requires ParseOpList(ops, ctx, md, s, false).Ok? && k < |ParseOpList(ops, ctx, md, s, false).value|
    ensures
      var op := ParseOpList(ops, ctx, md, s, false).value[k];
      op.ColumnRel? ==> access(op.table) == Seen(None)
  {
    var n := |ops| - 1;
    var init := ParseOpList(ops[..n], ctx, md, s, false);
    if k < |init.value| {
      OpsConfined(ops[..n], ctx, md, s, access, k);
    } else {
      OpConfined(ops[n].0, ops[n].1, ctx, md, s, access);
    }
  }

  lemma ComparesGuarded(column: string, pgType: string, sub: Value, ctx: TableCtx, md: Metadata, s: Session, access: Table -> Access)
    requires ConfinedOps(sub, ctx.entry, access) && ParseOps(sub, ctx, md, s, false).Ok?
    ensures Guarded(Compares(column, pgType, ParseOps(sub, ctx, md, s, false).value), access)
  {
    var ops := ParseOps(sub, ctx, md, s, false).value;
    forall k | 0 <= k < |ops| ensures ops[k].ColumnRel? ==> access(ops[k].table) == Seen(None) {
      if sub.Obj? {
        OpsConfined(sub.fields, ctx, md, s, access, k);
      }
    }
  }

  ghost predicate IsAccess(access: Table -> Access, md: Metadata, s: Session) {
    forall t :: access(t) == AccessOf(md, s, t)
  }

  lemma {:induction false} ParseGuarded(v: Value, ctx: TableCtx, md: Metadata, s: Session, access: Table -> Access)
    requires Confined(v, ctx, md, s, access) && IsAccess(access, md, s)
    requires ParseBool(v, ctx, md, s, false).Ok?
    ensures Guarded(ParseBool(v, ctx, md, s, false).value, access)
    decreases v, 2
  {
    ConjunctsGuarded(v.fields, ctx, md, s, access);
  }

  lemma {:induction false} ConjunctsGuarded(fields: seq<(string, Value)>, ctx: TableCtx, md: Metadata, s: Session, access: Table -> Access)
    requires IsAccess(access, md, s)
    requires forall i :: 0 <= i < |fields| ==> ConfinedField(fields[i], ctx, md, s, access)
    requires Conjuncts(fields, ctx, md, s, false).Ok?
    ensures
      var cs := Conjuncts(fields, ctx, md, s, false).value;
      forall i :: 0 <= i < |cs| ==> Guarded(cs[i], access)
    decreases fields, 1
  {
    if fields != [] {
      var n := |fields| - 1;
      ConjunctsGuarded(fields[..n], ctx, md, s, access);
      ConjunctGuarded(fields[n], ctx, md, s, access);
    }
  }

  lemma {:induction false} AllGuarded(vs: seq<Value>, ctx: TableCtx, md: Metadata, s: Session, access: Table -> Access)
    requires IsAccess(access, md, s)
    requires forall i :: 0 <= i < |vs| ==> Confined(vs[i], ctx, md, s, access)
    requires ParseAll(vs, ctx, md, s, false).Ok?
    ensures
      var es := ParseAll(vs, ctx, md, s, false).value;
      forall i :: 0 <= i < |es| ==> Guarded(es[i], access)
    decreases vs, 0
  {
    if vs != [] {
      var n := |vs| - 1;
      AllGuarded(vs[..n], ctx, md, s, access);
      ParseGuarded(vs[n], ctx, md, s, access);
    }
  }

  lemma {:induction false} ConjunctGuarded(field: (string, Value), ctx: TableCtx, md: Metadata, s: Session, access: Table -> Access)
    requires ConfinedField(field, ctx, md, s, access) && IsAccess(access, md, s)
    requires Conjunct(field, ctx, md, s, false).Ok?
    ensures Guarded(Conjunct(field, ctx, md, s, false).value, access)
    decreases field, 0
  {
    var (rawKey, sub) := field;
    var key := Logical(rawKey);
    if key == "_and" || key == "_or" {
      AllGuarded(sub.items, ctx, md, s, access);
    } else if key == "_not" {
      ParseGuarded(sub, ctx, md, s, access);
    } else if key == "_exists" {
      ExistsGuarded(sub, md, s, access);
    } else if key in ctx.entry.columns && ColumnAllowed(ctx, key) {
      ComparesGuarded(key, ctx.entry.columns[key], sub, ctx, md, s, access);
    } else {
      var target := RelTarget(ctx.entry, key).value;
      var remote := TableCtxOf(md, target.0, s).value;
      ParseGuarded(sub, remote, md, s, access);
      assert access(target.0) == AccessOf(md, s, target.0);
    }
  }

  lemma {:induction false} ExistsGuarded(sub: Value, md: Metadata, s: Session, access: Table -> Access)
    requires ConfinedExists(sub, md, s, access) && IsAccess(access, md, s)
    requires ExistsPredicate(sub, md, s, false).Ok?
    ensures Guarded(ExistsPredicate(sub, md, s, false).value, access)
    decreases sub, 3
  {
    var t := TableOf(Member(sub, "_table").value).value;
    ParseGuarded(Member(sub, "_where").value, TableCtxOf(md, t, s).value, md, s, access);
  }

  /** End to end: the `where` argument of a role with row-local filters. */
  lemma WhereNonInterference(where: Value, ctx: TableCtx, md: Metadata, s: Session, access: Table -> Access,
    eng: Engine, t1: Tables, t2: Tables, row: Row)
    requires IsAccess(access, md, s) && LocalFilters(access) && Confined(where, ctx, md, s, access)
    requires Agree(eng, t1, t2, access)
    requires ParseBool(where, ctx, md, s, false).Ok?
    ensures
      var e := ParseBool(where, ctx, md, s, false).value;
      Meaning.Holds(e, Db(t1, eng), row, row) == Meaning.Holds(e, Db(t2, eng), row, row)
  {
    ParseGuarded(where, ctx, md, s, access);
    FilterNonInterference(ParseBool(where, ctx, md, s, false).value, eng, t1, t2, access, row, row);
  }

  // ----- the condition is needed -----

  /** `{_exists: {_table: t, _where: {}}}` */
  function ExistsJson(t: Table): Value {
    Obj([("_exists", Obj([("_table", Obj([("schema", Text(t.schema)), ("name", Text(t.name))])), ("_where", Obj([]))]))])
  }

  lemma ExistsJsonParses(t: Table, ctx: TableCtx, md: Metadata, s: Session)
    requires TableCtxOf(md, t, s).Some?
    ensures ParseBool(ExistsJson(t), ctx, md, s, false) == Ok(Exists(t, And([])))
  {
    var table := Obj([("schema", Text(t.schema)), ("name", Text(t.name))]);
    var where := Obj([]);
    var sub := Obj([("_table", table), ("_where", where)]);
    assert MemberOf(table, table.fields[1..], "name") == Some(Text(t.name));
    assert TableOf(table) == Some(t);
    assert MemberOf(sub, sub.fields[1..], "_where") == Some(where);
    assert Member(sub, "_table") == Some(table) && Member(sub, "_where") == Some(where);
    assert ParseBool(where, TableCtxOf(md, t, s).value, md, s, false) == Ok(And([]));
    var fields := [("_exists", sub)];
    assert Conjunct(fields[0], ctx, md, s, false) == Ok(Exists(t, And([])));
    assert fields[..0] == [];
    assert Conjuncts(fields[..0], ctx, md, s, false) == Ok([]);
    assert [] + [Exists(t, And([]))] == [Exists(t, And([]))];
    assert Conjuncts(fields, ctx, md, s, false) == Ok([Exists(t, And([]))]);
  }

  /** A row the role may not see leaves the visible rows as they are. */
  lemma HiddenRowAgrees(t: Table, hidden: Row, access: Table -> Access, eng: Engine)
    requires access(t).Seen? && !Meaning.Passes(access(t).filter, Db(map[t := [hidden]], eng), hidden)
    ensures Agree(eng, map[], map[t := [hidden]], access)
  {
    var d2 := Db(map[t := [hidden]], eng);
    forall u | access(u).Seen? ensures Visible(Db(map[], eng), u, access(u).filter) == Visible(d2, u, access(u).filter) {
      if u == t {
        assert Rows(d2, t) == [hidden];
        var mask := seq(1, i requires 0 <= i < 1 => Meaning.Selected(Meaning.NoOuter, access(t).filter, d2, Rows(d2, t)[i]));
        assert !mask[0];
        assert Visible(d2, t, access(t).filter) == Keep([hidden], mask);
      }
    }
  }

  /** If the role's filter on `t` rejects some row, `_exists` over `t` tells an
      empty table from a table holding only that invisible row. */
  lemma ExistsInterferes(t: Table, hidden: Row, ctx: TableCtx, md: Metadata, s: Session, access: Table -> Access, eng: Engine, row: Row)
    requires IsAccess(access, md, s) && access(t).Seen?
    requires !Meaning.Passes(access(t).filter, Db(map[t := [hidden]], eng), hidden)
    ensures Agree(eng, map[], map[t := [hidden]], access)
    ensures
      var e := ParseBool(ExistsJson(t), ctx, md, s, false);
      e.Ok? && Meaning.Holds(e.value, Db(map[], eng), row, row) != Meaning.Holds(e.value, Db(map[t := [hidden]], eng), row, row)
  {
    var d2 := Db(map[t := [hidden]], eng);
    ExistsJsonParses(t, ctx, md, s);
    assert Meaning.Holds(And([]), d2, Rows(d2, t)[0], Rows(d2, t)[0]).True?;
    HiddenRowAgrees(t, hidden, access, eng);
  }

  /** `{column: {_ceq: ["rel", related]}}` */
  function RelatedColumnJson(column: string, rel: string, related: string): Value {
    Obj([(column, CeqPath(rel, related))])
  }

  lemma RelatedColumnParses(column: string, rel: string, related: string, t: Table, join: Join, ctx: TableCtx, md: Metadata, s: Session)
    requires PlainKey(column) && ColumnAllowed(ctx, column) && rel != "$" && RelTarget(ctx.entry, rel) == Some((t, join))
    ensures ParseBool(RelatedColumnJson(column, rel, related), ctx, md, s, false) ==
            Ok(Compare(column, ctx.entry.columns[column], ColumnRel(Eq, t, join, related)))
  {
    SingleConjunct(column, CeqPath(rel, related), ctx, md, s, false);
    CeqParses(rel, related, ctx, md, s, false);
  }

  /** Comparing with a related column reads the first joined row whether or not
      the role may see it: if the filter on the related table rejects a row, the
      comparison tells an empty table from a table holding only that row. */
  lemma RelatedColumnInterferes(column: string, rel: string, related: string, t: Table, join: Join, hidden: Row, ctx: TableCtx,
    md: Metadata, s: Session, access: Table -> Access, eng: Engine, row: Row)
    requires IsAccess(access, md, s) && access(t).Seen?
    requires PlainKey(column) && ColumnAllowed(ctx, column) && rel != "$" && RelTarget(ctx.entry, rel) == Some((t, join))
    requires !Meaning.Passes(access(t).filter, Db(map[t := [hidden]], eng), hidden)
    requires Meaning.Joined(join, row, hidden) && !Get(row, column).Null? && Get(row, column) == Get(hidden, related)
    ensures Agree(eng, map[], map[t := [hidden]], access)
    ensures
      var e := ParseBool(RelatedColumnJson(column, rel, related), ctx, md, s, false);
      e.Ok? && Meaning.Holds(e.value, Db(map[], eng), row, row).Unknown? &&
      Meaning.Holds(e.value, Db(map[t := [hidden]], eng), row, row).True?
  {
    HiddenRowAgrees(t, hidden, access, eng);
    RelatedColumnParses(column, rel, related, t, join, ctx, md, s);
    var d2 := Db(map[t := [hidden]], eng);
    assert Rows(d2, t) == [hidden];
    var mask := seq(1, i requires 0 <= i < 1 => Meaning.Joined(join, row, Rows(d2, t)[i]));
    assert mask[0] && Meaning.JoinedRows(d2, t, join, row) == Keep([hidden], mask);
    assert Keep([hidden], mask) == [hidden];
    assert Meaning.JoinedRows(Db(map[], eng), t, join, row) == [];
  }
}
