/** `walk_table_selection` and `build_select` as they run: a loop over the
    selected fields that fills the output list, with an early return on the
    first error, and predicates pushed one after another. */
module SelectPlanLoops {
  import opened Values
  import opened Ir
  import opened Planner
  import opened OrderPlan
  import opened SelectPlan
  import PlannerLoops
  import OrderLoops

  lemma {:induction false} FieldsStop(sels: seq<Selection>, i: nat, ctx: TableCtx, md: Metadata, s: Session)
    requires i < |sels|
    ensures
      var upTo := PlanFields(sels[..i + 1], ctx, md, s);
      upTo.Err? ==> PlanFields(sels, ctx, md, s) == upTo
  {
    if i + 1 == |sels| {
      assert sels[..i + 1] == sels;
    } else {
      var n := |sels| - 1;
      assert sels[..n][..i + 1] == sels[..i + 1];
      FieldsStop(sels[..n], i, ctx, md, s);
    }
  }

  lemma {:induction false} EntriesStop(sels: seq<Selection>, i: nat, ctx: TableCtx, md: Metadata, s: Session)
    requires i < |sels|
    ensures
      var upTo := PlanEntries(sels[..i + 1], ctx, md, s);
      upTo.Err? ==> PlanEntries(sels, ctx, md, s) == upTo
  {
    if i + 1 == |sels| {
      assert sels[..i + 1] == sels;
    } else {
      var n := |sels| - 1;
      assert sels[..n][..i + 1] == sels[..i + 1];
      EntriesStop(sels[..n], i, ctx, md, s);
    }
  }

  /** The guard of a cell. */
  method CellGuard(ctx: TableCtx, column: string, md: Metadata, s: Session) returns (r: Result<Option<BoolExp>, PlanError>)
    ensures r == Guard(ctx, column, md, s)
  {
    var granting := Granting(ctx.perms, column);
    if |ctx.perms| > 1 && |granting| < |ctx.perms| {
      r := PlannerLoops.CombineFilters(granting, ctx, md, s);
    } else {
      r := Ok(None);
    }
  }

  method WalkTableSelection(sels: seq<Selection>, ctx: TableCtx, md: Metadata, s: Session) returns (r: Result<seq<OutputField>, PlanError>)
    ensures r == PlanFields(sels, ctx, md, s)
    decreases sels, 2
  {
    var out: seq<OutputField> := [];
    for i := 0 to |sels|
      invariant PlanFields(sels[..i], ctx, md, s) == Ok(out)
    {
      assert sels[..i + 1][..i] == sels[..i];
      FieldsStop(sels, i, ctx, md, s);
      var v := PlanOneField(sels[i], ctx, md, s);
      if v.Err? {
        return Err(v.error);
      }
      out := out + [OutputField(sels[i].alias, v.value)];
    }
    assert sels[..|sels|] == sels;
    r := Ok(out);
  }

  method PlanOneField(sel: Selection, ctx: TableCtx, md: Metadata, s: Session) returns (r: Result<FieldValue, PlanError>)
    ensures r == PlanField(sel, ctx, md, s)
    decreases sel, 4
  {
    if sel.name == "__typename" {
      return Ok(Typename(ctx.entry.typeName));
    }
    if ColumnAllowed(ctx, sel.name) {
      var ty := ctx.entry.columns[sel.name];
      var guard := CellGuard(ctx, sel.name, md, s);
      r := if guard.Err? then Err(guard.error)
           else if guard.value.Some? then Ok(ColumnGuarded(sel.name, ty, guard.value.value))
           else Ok(ColumnField(sel.name, ty));
      return;
    }
    var rel := FindRel(ctx.entry.objectRels, sel.name);
    if rel.Some? {
      var remote := if rel.value.target.None? then None else TableCtxOf(md, rel.value.target.value.0, s);
      if remote.None? {
        return Err(Invalid);
      }
      var q := ObjectSelect(remote.value, sel, md, s);
      r := if q.Err? then Err(q.error) else Ok(Related(q.value, rel.value.target.value.1));
      return;
    }
    var (base, aggregate) := ArrayRel(ctx.entry, sel.name);
    var arr := FindRel(ctx.entry.arrayRels, base);
    if arr.None? || arr.value.target.None? {
      return Err(Invalid);
    }
    var remote := TableCtxOf(md, arr.value.target.value.0, s);
    if remote.None? || (aggregate && !AllowsAggregations(remote.value)) {
      return Err(Invalid);
    }
    var q := PlanSelect(remote.value, if aggregate then Aggregation else List, sel, md, s);
    r := if q.Err? then Err(q.error) else Ok(Related(q.value, arr.value.target.value.1));
  }

  method ObjectSelect(remote: TableCtx, sel: Selection, md: Metadata, s: Session) returns (r: Result<SelectQuery, PlanError>)
    ensures r == PlanObject(remote, sel, md, s)
    decreases sel, 3
  {
    var fields := WalkTableSelection(sel.sub, remote, md, s);
    if fields.Err? {
      return Err(fields.error);
    }
    if sel.sub == [] {
      return Err(Invalid);
    }
    var filter := PlannerLoops.CombineFilters(remote.perms, remote, md, s);
    r := if filter.Err? then Err(filter.error)
         else Ok(SelectQuery(Scan(remote.table), fields.value, filter.value, [], None, None, None, true));
  }

  /** `build_select` */
  method PlanSelect(ctx: TableCtx, kind: Kind, sel: Selection, md: Metadata, s: Session) returns (r: Result<SelectQuery, PlanError>)
    ensures r == BuildSelect(ctx, kind, sel, md, s)
    decreases sel, 3
  {
    var user := UserWhere(ctx, kind, sel.args, md, s);
    if user.Err? {
      return Err(user.error);
    }
    var order: Result<seq<OrderBy>, PlanError> := Ok([]);
    if !kind.ByPk? && sel.args.orderBy.Some? {
      order := OrderLoops.ParseOrder(sel.args.orderBy.value, ctx, md, s);
    }
    if order.Err? {
      return Err(order.error);
    }
    var predicates := user.value;
    var filter := PlannerLoops.CombineFilters(ctx.perms, ctx, md, s);
    if filter.Err? {
      return Err(filter.error);
    }
    if filter.value.Some? {
      predicates := predicates + [filter.value.value];
    }
    var fields: Result<seq<OutputField>, PlanError>;
    if kind.Aggregation? {
      fields := WalkAggregate(sel.sub, ctx, md, s);
    } else {
      fields := WalkTableSelection(sel.sub, ctx, md, s);
    }
    if fields.Err? {
      return Err(fields.error);
    }
    if kind != Aggregation && sel.sub == [] {
      return Err(Invalid);
    }
    assert predicates == user.value + AsList(filter.value);
    var cap := PermLimit(ctx.perms);
    var q := SelectQuery(Scan(ctx.table), fields.value, Merge(predicates), order.value, sel.args.limit, None,
      sel.args.offset, false);
    match kind {
      case ByPk => q := q.(orderBy := [], limit := None, offset := None, single := true);
      case Aggregation => q := q.(nodesLimit := cap);
      case List => q := q.(limit := Smaller(sel.args.limit, cap));
    }
    r := Ok(q);
  }

  method WalkAggregate(sels: seq<Selection>, ctx: TableCtx, md: Metadata, s: Session) returns (r: Result<seq<OutputField>, PlanError>)
    ensures r == PlanEntries(sels, ctx, md, s)
    decreases sels, 2
  {
    var out: seq<OutputField> := [];
    for i := 0 to |sels|
      invariant PlanEntries(sels[..i], ctx, md, s) == Ok(out)
    {
      assert sels[..i + 1][..i] == sels[..i];
      EntriesStop(sels, i, ctx, md, s);
      var v := AggregateEntry(sels[i], ctx, md, s);
      if v.Err? {
        return Err(v.error);
      }
      out := out + [OutputField(sels[i].alias, v.value)];
    }
    assert sels[..|sels|] == sels;
    r := Ok(out);
  }

  method AggregateEntry(sel: Selection, ctx: TableCtx, md: Metadata, s: Session) returns (r: Result<FieldValue, PlanError>)
    ensures r == PlanEntry(sel, ctx, md, s)
    decreases sel, 4
  {
    if sel.name == "nodes" {
      var fields := WalkTableSelection(sel.sub, ctx, md, s);
      r := if fields.Err? then Err(fields.error)
           else if sel.sub == [] then Err(Invalid)
           else Ok(Nodes(fields.value));
    } else {
      r := PlanEntry(sel, ctx, md, s);
    }
  }
}
