/** The select plan of a role: `build_select`, `walk_table_selection` and the
    aggregate selections, over flattened selection sets. */
module SelectPlan {
  import opened Values
  import opened Database
  import opened Ir
  import opened Planner
  import opened OrderPlan

  /** Field arguments, already matched by name; `pk` holds the key arguments of a
      `_by_pk` root, `distinct` and `columns` those of `count`. */
  datatype Args = Args(where: Option<Value>, orderBy: Option<Value>, limit: Option<nat>, offset: Option<nat>,
                       pk: seq<(string, Value)>, distinct: bool, columns: seq<string>)

  datatype Selection = Selection(alias: string, name: string, args: Args, sub: seq<Selection>)

  datatype Kind = List | ByPk | Aggregation

  /** The cell guard of a column: needed when only some parents grant it. */
  function Guard(ctx: TableCtx, column: string, md: Metadata, s: Session): Result<Option<BoolExp>, PlanError> {
    var granting := Granting(ctx.perms, column);
    if |ctx.perms| > 1 && |granting| < |ctx.perms| then CombinedFilter(granting, ctx, md, s) else Ok(None)
  }

  predicate AllowsAggregations(ctx: TableCtx) {
    exists i :: 0 <= i < |ctx.perms| && ctx.perms[i].allowAggregations
  }

  function PkPredicates(ctx: TableCtx, pk: seq<(string, Value)>): Result<seq<BoolExp>, PlanError> {
    if exists i :: 0 <= i < |pk| && !(pk[i].0 in ctx.entry.primaryKey && ColumnAllowed(ctx, pk[i].0)) then Err(Invalid)
    else if exists c :: c in ctx.entry.primaryKey && forall i :: 0 <= i < |pk| ==> pk[i].0 != c then Err(Invalid)
    else Ok(seq(|pk|, i requires 0 <= i < |pk| =>
      assert ColumnAllowed(ctx, pk[i].0);
      Compare(pk[i].0, ctx.entry.columns[pk[i].0], Bin(Eq, pk[i].1))))
  }

  function AsList(p: Option<BoolExp>): seq<BoolExp> {
    if p.None? then [] else [p.value]
  }

  /** No conjunct, one conjunct, or their conjunction. */
  function Merge(ps: seq<BoolExp>): Option<BoolExp> {
    if ps == [] then None else if |ps| == 1 then Some(ps[0]) else Some(And(ps))
  }

  function UserWhere(ctx: TableCtx, kind: Kind, args: Args, md: Metadata, s: Session): Result<seq<BoolExp>, PlanError> {
    if kind.ByPk? then PkPredicates(ctx, args.pk)
    else if args.where.None? then Ok([])
    else
      var w := ParseBool(args.where.value, ctx, md, s, false);
      if w.Err? then Err(w.error) else Ok([w.value])
  }

  /** `order_by`, which a `_by_pk` root does not take. */
  function UserOrder(ctx: TableCtx, kind: Kind, args: Args, md: Metadata, s: Session): Result<seq<OrderBy>, PlanError> {
    if kind.ByPk? || args.orderBy.None? then Ok([]) else ParseOrderBy(args.orderBy.value, ctx, md, s)
  }

  function Smaller(limit: Option<nat>, cap: Option<nat>): Option<nat> {
    if cap.None? then limit
    else if limit.Some? && limit.value <= cap.value then limit
    else cap
  }

  function BuildSelect(ctx: TableCtx, kind: Kind, sel: Selection, md: Metadata, s: Session): Result<SelectQuery, PlanError>
    decreases sel, 3
  {
    var user := UserWhere(ctx, kind, sel.args, md, s);
    var order := UserOrder(ctx, kind, sel.args, md, s);
    if user.Err? then Err(user.error)
    else if order.Err? then Err(order.error)
    else
      var filter := CombinedFilter(ctx.perms, ctx, md, s);
      if filter.Err? then Err(filter.error)
      else
        var fields := if kind.Aggregation? then PlanEntries(sel.sub, ctx, md, s) else PlanFields(sel.sub, ctx, md, s);
        if fields.Err? then Err(fields.error)
        else if kind != Aggregation && sel.sub == [] then Err(Invalid)
        else
          var predicates := user.value + AsList(filter.value);
          var cap := PermLimit(ctx.perms);
          Ok(SelectQuery(
            Scan(ctx.table), fields.value, Merge(predicates),
            order.value,
            if kind.ByPk? then None else if kind.Aggregation? then sel.args.limit else Smaller(sel.args.limit, cap),
            if kind.Aggregation? then cap else None,
            if kind.ByPk? then None else sel.args.offset,
            kind.ByPk?))
  }

  function PlanFields(sels: seq<Selection>, ctx: TableCtx, md: Metadata, s: Session): Result<seq<OutputField>, PlanError>
    decreases sels, 2
  {
    if sels == [] then Ok([])
    else
      var n := |sels| - 1;
      var init := PlanFields(sels[..n], ctx, md, s);
      if init.Err? then init
      else
        var last := PlanField(sels[n], ctx, md, s);
        if last.Err? then Err(last.error) else Ok(init.value + [OutputField(sels[n].alias, last.value)])
  }

  function PlanField(sel: Selection, ctx: TableCtx, md: Metadata, s: Session): Result<FieldValue, PlanError>
    decreases sel, 4
  {
    if sel.name == "__typename" then Ok(Typename(ctx.entry.typeName))
    else if ColumnAllowed(ctx, sel.name) then
      var ty := ctx.entry.columns[sel.name];
      var guard := Guard(ctx, sel.name, md, s);
      if guard.Err? then Err(guard.error)
      else if guard.value.Some? then Ok(ColumnGuarded(sel.name, ty, guard.value.value))
      else Ok(ColumnField(sel.name, ty))
    else if FindRel(ctx.entry.objectRels, sel.name).Some? then
      var target := FindRel(ctx.entry.objectRels, sel.name).value.target;
      if target.None? then Err(Invalid)
      else
        var remote := TableCtxOf(md, target.value.0, s);
        if remote.None? then Err(Invalid)
        else
          var q := PlanObject(remote.value, sel, md, s);
          if q.Err? then Err(q.error) else Ok(Related(q.value, target.value.1))
    else
      var (base, aggregate) := ArrayRel(ctx.entry, sel.name);
      var rel := FindRel(ctx.entry.arrayRels, base);
      if rel.None? || rel.value.target.None? then Err(Invalid)
      else
        var target := rel.value.target.value;
        var remote := TableCtxOf(md, target.0, s);
        if remote.None? || (aggregate && !AllowsAggregations(remote.value)) then Err(Invalid)
        else
          var q := BuildSelect(remote.value, if aggregate then Aggregation else List, sel, md, s);
          if q.Err? then Err(q.error) else Ok(Related(q.value, target.1))
  }

  /** An object relationship: the first visible related row. */
  function PlanObject(remote: TableCtx, sel: Selection, md: Metadata, s: Session): Result<SelectQuery, PlanError>
    decreases sel, 3
  {
    var fields := PlanFields(sel.sub, remote, md, s);
    if fields.Err? then Err(fields.error)
    else if sel.sub == [] then Err(Invalid)
    else
      var filter := CombinedFilter(remote.perms, remote, md, s);
      if filter.Err? then Err(filter.error)
      else Ok(SelectQuery(Scan(remote.table), fields.value, filter.value, [], None, None, None, true))
  }

  // ----- aggregate selections -----

  predicate OneOf(name: string, names: seq<string>) {
    names != [] && (names[0] == name || OneOf(name, names[1..]))
  }

  predicate IsColumnOp(name: string) {
    OneOf(name, ["sum", "avg", "max", "min", "stddev", "stddev_samp", "stddev_pop", "variance", "var_samp", "var_pop"])
  }

  function PlanEntries(sels: seq<Selection>, ctx: TableCtx, md: Metadata, s: Session): Result<seq<OutputField>, PlanError>
    decreases sels, 2
  {
    if sels == [] then Ok([])
    else
      var n := |sels| - 1;
      var init := PlanEntries(sels[..n], ctx, md, s);
      if init.Err? then init
      else
        var last := PlanEntry(sels[n], ctx, md, s);
        if last.Err? then Err(last.error) else Ok(init.value + [OutputField(sels[n].alias, last.value)])
  }

  function PlanEntry(sel: Selection, ctx: TableCtx, md: Metadata, s: Session): Result<FieldValue, PlanError>
    decreases sel, 4
  {
    if sel.name == "__typename" then Ok(Typename(ctx.entry.typeName + Suffix()))
    else if sel.name == "aggregate" then
      var aggs := PlanAggregates(sel.sub, ctx, md, s);
      if aggs.Err? then Err(aggs.error) else Ok(Aggregate(aggs.value))
    else if sel.name == "nodes" then
      var fields := PlanFields(sel.sub, ctx, md, s);
      if fields.Err? then Err(fields.error)
      else if sel.sub == [] then Err(Invalid)
      else Ok(Nodes(fields.value))
    else Err(Invalid)
  }

  function PlanAggregates(sels: seq<Selection>, ctx: TableCtx, md: Metadata, s: Session): Result<seq<AggregateField>, PlanError> {
    if sels == [] then Ok([])
    else
      var n := |sels| - 1;
      var init := PlanAggregates(sels[..n], ctx, md, s);
      if init.Err? then init
      else
        var last := PlanAggregate(sels[n], ctx, md, s);
        if last.Err? then Err(last.error) else Ok(init.value + [AggregateField(sels[n].alias, last.value)])
  }

  predicate AnyColumnAllowed(ctx: TableCtx) {
    exists c :: c in ctx.entry.columns && ColumnAllowed(ctx, c)
  }

  function PlanAggregate(sel: Selection, ctx: TableCtx, md: Metadata, s: Session): Result<AggregateOp, PlanError> {
    if sel.name == "count" then
      if sel.args.columns != [] && (!AnyColumnAllowed(ctx) || exists i :: 0 <= i < |sel.args.columns| && !ColumnAllowed(ctx, sel.args.columns[i]))
      then Err(Invalid)
      else Ok(Count(sel.args.distinct, sel.args.columns))
    else if IsColumnOp(sel.name) && AnyColumnAllowed(ctx) then
      var cols := PlanAggColumns(sel.sub, ctx, md, s);
      if cols.Err? then Err(cols.error) else Ok(AggregateOp.ColumnOp(sel.name, cols.value))
    else Err(Invalid)
  }

  function PlanAggColumns(sels: seq<Selection>, ctx: TableCtx, md: Metadata, s: Session): Result<seq<AggregateColumn>, PlanError> {
    if sels == [] then Ok([])
    else
      var n := |sels| - 1;
      var init := PlanAggColumns(sels[..n], ctx, md, s);
      if init.Err? then init
      else if !ColumnAllowed(ctx, sels[n].name) then Err(Invalid)
      else
        var guard := Guard(ctx, sels[n].name, md, s);
        if guard.Err? then Err(guard.error)
        else Ok(init.value + [AggregateColumn(sels[n].alias, sels[n].name, guard.value)])
  }
}
