/** Which user filters read only shown cells, said of the client's JSON. */
module ShownFilters {
  import opened Values
  import opened Ir
  import opened JsonAccess
  import opened Planner
  import opened RootedFilters
  import opened CellFilters

  ghost predicate ShowsOp(op: (string, Value), ctx: TableCtx, root: TableCtx, md: Metadata, s: Session) {
    var parsed := ParseOp(op.0, op.1, ctx, md, s, false);
    parsed.Ok? ==> ShownOp(parsed.value, ctx, root, md, s)
  }

  /** The operand columns of a comparison are readable, too. */
  ghost predicate ShowsOps(sub: Value, ctx: TableCtx, root: TableCtx, md: Metadata, s: Session) {
    sub.Obj? ==> forall i :: 0 <= i < |sub.fields| ==> ShowsOp(sub.fields[i], ctx, root, md, s)
  }

  /** Read through a relationship: its join columns are readable on both sides and
      the related table's own filter does not refer to the root. */
  ghost predicate ShowsJoin(join: Join, ctx: TableCtx, remote: TableCtx, md: Metadata, s: Session) {
    JoinReadable(join, ctx, remote, md, s) &&
    var filter := CombinedFilter(remote.perms, remote, md, s);
    filter.Ok? && filter.value.Some? ==> RootFree(filter.value.value)
  }

  /** Every column that the filter reads, on every table it reaches, is granted and
      needs no guard; `_exists` reaches only tables without a row filter. */
  ghost predicate ShowsFilter(v: Value, ctx: TableCtx, root: TableCtx, md: Metadata, s: Session)
    decreases v, 1
  {
    v.Obj? ==> forall i :: 0 <= i < |v.fields| ==> ShowsField(v.fields[i], ctx, root, md, s)
  }

  ghost predicate ShowsField(field: (string, Value), ctx: TableCtx, root: TableCtx, md: Metadata, s: Session)
    decreases field, 0
  {
    var (rawKey, sub) := field;
    var key := Logical(rawKey);
    if key == "_and" || key == "_or" then
      sub.Arr? ==> forall i :: 0 <= i < |sub.items| ==> ShowsFilter(sub.items[i], ctx, root, md, s)
    else if key == "_not" then ShowsFilter(sub, ctx, root, md, s)
    else if key == "_exists" then ShowsExists(sub, md, s)
    else if key in ctx.entry.columns && ColumnAllowed(ctx, key) then Readable(ctx, key, md, s) && ShowsOps(sub, ctx, root, md, s)
    else
      var target := RelTarget(ctx.entry, key);
      target.Some? && TableCtxOf(md, target.value.0, s).Some? ==>
        var remote := TableCtxOf(md, target.value.0, s).value;
        ShowsJoin(target.value.1, ctx, remote, md, s) && ShowsFilter(sub, remote, root, md, s)
  }

  ghost predicate ShowsExists(sub: Value, md: Metadata, s: Session)
    decreases sub, 2
  {
    var table, where := Member(sub, "_table"), Member(sub, "_where");
    table.Some? && TableOf(table.value).Some? && where.Some? && TableCtxOf(md, TableOf(table.value).value, s).Some? ==>
      var t := TableOf(table.value).value;
      var remote := TableCtxOf(md, t, s).value;
      OpenAt(t, remote, md, s) && ShowsFilter(where.value, remote, remote, md, s)
  }

  lemma {:induction false} OpsShown(ops: seq<(string, Value)>, ctx: TableCtx, root: TableCtx, md: Metadata, s: Session)
    requires forall i :: 0 <= i < |ops| ==> ShowsOp(ops[i], ctx, root, md, s)
    requires ParseOpList(ops, ctx, md, s, false).Ok?
    ensures
      var parsed := ParseOpList(ops, ctx, md, s, false).value;
      forall i :: 0 <= i < |parsed| ==> ShownOp(parsed[i], ctx, root, md, s)
  {
    if ops != [] {
      var n := |ops| - 1;
      OpsShown(ops[..n], ctx, root, md, s);
      assert ShowsOp(ops[n], ctx, root, md, s);
    }
  }

  lemma {:induction false} ComparesShown(column: string, pgType: string, sub: Value, ctx: TableCtx, root: TableCtx, md: Metadata, s: Session)
    requires Readable(ctx, column, md, s) && ShowsOps(sub, ctx, root, md, s) && ParseOps(sub, ctx, md, s, false).Ok?
    ensures ShownExp(Compares(column, pgType, ParseOps(sub, ctx, md, s, false).value), ctx, root, md, s)
  {
    if sub.Obj? {
      OpsShown(sub.fields, ctx, root, md, s);
    }
    var ops := ParseOps(sub, ctx, md, s, false).value;
    assert forall i :: 0 <= i < |ops| ==> ShownOp(ops[i], ctx, root, md, s);
  }

  lemma {:induction false} ConjoinShown(cs: seq<BoolExp>, ctx: TableCtx, root: TableCtx, md: Metadata, s: Session)
    requires forall i :: 0 <= i < |cs| ==> ShownExp(cs[i], ctx, root, md, s)
    ensures ShownExp(Conjoin(cs), ctx, root, md, s)
  {
  }

  /** Main result of this module: the planner's filter reads what the JSON says. */
  lemma {:induction false} ParseShown(v: Value, ctx: TableCtx, root: TableCtx, md: Metadata, s: Session)
    requires ShowsFilter(v, ctx, root, md, s) && ParseBool(v, ctx, md, s, false).Ok?
    ensures ShownExp(ParseBool(v, ctx, md, s, false).value, ctx, root, md, s)
    decreases v, 2
  {
    ConjunctsShown(v.fields, ctx, root, md, s);
    ConjoinShown(Conjuncts(v.fields, ctx, md, s, false).value, ctx, root, md, s);
  }

  lemma {:induction false} ConjunctsShown(fields: seq<(string, Value)>, ctx: TableCtx, root: TableCtx, md: Metadata, s: Session)
    requires forall i :: 0 <= i < |fields| ==> ShowsField(fields[i], ctx, root, md, s)
    requires Conjuncts(fields, ctx, md, s, false).Ok?
    ensures
      var cs := Conjuncts(fields, ctx, md, s, false).value;
      forall i :: 0 <= i < |cs| ==> ShownExp(cs[i], ctx, root, md, s)
    decreases fields, 1
  {
    if fields != [] {
      var n := |fields| - 1;
      ConjunctsShown(fields[..n], ctx, root, md, s);
      ConjunctShown(fields[n], ctx, root, md, s);
    }
  }

  lemma {:induction false} AllShown(vs: seq<Value>, ctx: TableCtx, root: TableCtx, md: Metadata, s: Session)
    requires forall i :: 0 <= i < |vs| ==> ShowsFilter(vs[i], ctx, root, md, s)
    requires ParseAll(vs, ctx, md, s, false).Ok?
    ensures
      var es := ParseAll(vs, ctx, md, s, false).value;
      forall i :: 0 <= i < |es| ==> ShownExp(es[i], ctx, root, md, s)
    decreases vs, 0
  {
    if vs != [] {
      var n := |vs| - 1;
      AllShown(vs[..n], ctx, root, md, s);
      ParseShown(vs[n], ctx, root, md, s);
    }
  }

  lemma {:induction false} ConjunctShown(field: (string, Value), ctx: TableCtx, root: TableCtx, md: Metadata, s: Session)
    requires ShowsField(field, ctx, root, md, s) && Conjunct(field, ctx, md, s, false).Ok?
    ensures ShownExp(Conjunct(field, ctx, md, s, false).value, ctx, root, md, s)
    decreases field, 0
  {
    var (rawKey, sub) := field;
    var key := Logical(rawKey);
    if key == "_and" || key == "_or" {
      AllShown(sub.items, ctx, root, md, s);
    } else if key == "_not" {
      ParseShown(sub, ctx, root, md, s);
    } else if key == "_exists" {
      ExistsShown(sub, ctx, root, md, s);
    } else if key in ctx.entry.columns && ColumnAllowed(ctx, key) {
      ComparesShown(key, ctx.entry.columns[key], sub, ctx, root, md, s);
    } else {
      ParseShown(sub, TableCtxOf(md, RelTarget(ctx.entry, key).value.0, s).value, root, md, s);
    }
  }

  lemma {:induction false} ExistsShown(sub: Value, ctx: TableCtx, root: TableCtx, md: Metadata, s: Session)
    requires ShowsExists(sub, md, s) && ExistsPredicate(sub, md, s, false).Ok?
    ensures ShownExp(ExistsPredicate(sub, md, s, false).value, ctx, root, md, s)
    decreases sub, 3
  {
    var t := TableOf(Member(sub, "_table").value).value;
    var remote := TableCtxOf(md, t, s).value;
    ParseShown(Member(sub, "_where").value, remote, remote, md, s);
  }
}
