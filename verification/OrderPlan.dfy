/** `parse_order_by` (crates/schema plan.rs): orderings by a column, by a column
    of an object relationship, and by an aggregate over an array relationship,
    the last two under the role's own filter on the related table. */
module OrderPlan {
  import opened Values
  import opened Database
  import opened Ir
  import opened Planner

  function Suffix(): string {
    "_aggregate"
  }

  /** `<rel>_aggregate` of an array relationship, else the name itself. */
  function ArrayRel(entry: TableEntry, name: string): (string, bool) {
    var cut := |name| - |Suffix()|;
    if cut >= 0 && name[cut..] == Suffix() && FindRel(entry.arrayRels, name[..cut]).Some? then (name[..cut], true)
    else (name, false)
  }

  function Direction(v: Value): Result<SortSpec, PlanError> {
    if v == Text("asc") || v == Text("asc_nulls_last") then Ok(SortSpec(Asc, Last))
    else if v == Text("asc_nulls_first") then Ok(SortSpec(Asc, First))
    else if v == Text("desc") || v == Text("desc_nulls_first") then Ok(SortSpec(Desc, First))
    else if v == Text("desc_nulls_last") then Ok(SortSpec(Desc, Last))
    else Err(Invalid)
  }

  function Single(target: OrderTarget, dir: Value): Result<seq<OrderBy>, PlanError> {
    var spec := Direction(dir);
    if spec.Err? then Err(spec.error) else Ok([OrderBy(target, spec.value)])
  }

  /** One ordering per column of the related table, each granted to the role. */
  function ColumnOrders(cols: seq<(string, Value)>, remote: TableCtx, target: string -> OrderTarget): Result<seq<OrderBy>, PlanError> {
    if cols == [] then Ok([])
    else
      var n := |cols| - 1;
      var init := ColumnOrders(cols[..n], remote, target);
      if init.Err? then init
      else if !ColumnAllowed(remote, cols[n].0) then Err(Invalid)
      else
        var last := Single(target(cols[n].0), cols[n].1);
        if last.Err? then last else Ok(init.value + last.value)
  }

  /** `count`, or a function name over columns. Any other key is taken for a
      function name. */
  function AggregateOrder(aggFn: string, v: Value, t: Table, join: Join, filter: Option<BoolExp>, remote: TableCtx): Result<seq<OrderBy>, PlanError> {
    if aggFn == "count" then Single(ByAggregate(t, join, "count", None, filter), v)
    else if !v.Obj? then Err(Invalid)
    else ColumnOrders(v.fields, remote, c => ByAggregate(t, join, aggFn, Some(c), filter))
  }

  function AggregateOrders(fields: seq<(string, Value)>, t: Table, join: Join, filter: Option<BoolExp>, remote: TableCtx):
    Result<seq<OrderBy>, PlanError>
  {
    if fields == [] then Ok([])
    else
      var n := |fields| - 1;
      var init := AggregateOrders(fields[..n], t, join, filter, remote);
      if init.Err? then init
      else
        var last := AggregateOrder(fields[n].0, fields[n].1, t, join, filter, remote);
        if last.Err? then last else Ok(init.value + last.value)
  }

  /** The relationship behind an order key that is no column, and whether the
      key asks for an aggregate over it. */
  function OrderRel(entry: TableEntry, key: string): Option<(Rel, bool)> {
    var (base, aggregate) := ArrayRel(entry, key);
    var rel := FindRel(if aggregate then entry.arrayRels else entry.objectRels, base);
    if rel.None? then None else Some((rel.value, aggregate))
  }

  function OrderField(key: string, v: Value, ctx: TableCtx, md: Metadata, s: Session): Result<seq<OrderBy>, PlanError> {
    if ColumnAllowed(ctx, key) then Single(ByColumn(key), v)
    else
      var rel := OrderRel(ctx.entry, key);
      if rel.None? || rel.value.0.target.None? then Err(Invalid)
      else RelatedOrders(rel.value.0.target.value.0, rel.value.0.target.value.1, rel.value.1, v, md, s)
  }

  function RelatedOrders(t: Table, join: Join, aggregate: bool, v: Value, md: Metadata, s: Session): Result<seq<OrderBy>, PlanError> {
    var remote := TableCtxOf(md, t, s);
    if remote.None? then Err(Invalid)
    else
      var filter := CombinedFilter(remote.value.perms, remote.value, md, s);
      if filter.Err? then Err(filter.error)
      else if !v.Obj? then Err(Invalid)
      else if aggregate then AggregateOrders(v.fields, t, join, filter.value, remote.value)
      else ColumnOrders(v.fields, remote.value, c => ByRelated(t, join, c, filter.value))
  }

  function OrderFields(fields: seq<(string, Value)>, ctx: TableCtx, md: Metadata, s: Session): Result<seq<OrderBy>, PlanError> {
    if fields == [] then Ok([])
    else
      var n := |fields| - 1;
      var init := OrderFields(fields[..n], ctx, md, s);
      if init.Err? then init
      else
        var last := OrderField(fields[n].0, fields[n].1, ctx, md, s);
        if last.Err? then last else Ok(init.value + last.value)
  }

  function OrderItems(items: seq<Value>, ctx: TableCtx, md: Metadata, s: Session): Result<seq<OrderBy>, PlanError> {
    if items == [] then Ok([])
    else
      var n := |items| - 1;
      var init := OrderItems(items[..n], ctx, md, s);
      if init.Err? then init
      else if !items[n].Obj? then Err(Invalid)
      else
        var last := OrderFields(items[n].fields, ctx, md, s);
        if last.Err? then last else Ok(init.value + last.value)
  }

  /** A single object stands for a list of one. */
  function ParseOrderBy(v: Value, ctx: TableCtx, md: Metadata, s: Session): Result<seq<OrderBy>, PlanError> {
    OrderItems(if v.Arr? then v.items else [v], ctx, md, s)
  }

  // ----- a property of every target -----

  /** Every ordering of a successful result satisfies `ok`. */
  predicate EveryTarget(r: Result<seq<OrderBy>, PlanError>, ok: OrderTarget -> bool) {
    r.Ok? ==> forall i :: 0 <= i < |r.value| ==> ok(r.value[i].target)
  }

  lemma {:induction false} ColumnOrdersEvery(cols: seq<(string, Value)>, remote: TableCtx, target: string -> OrderTarget, ok: OrderTarget -> bool)
    requires forall c :: ColumnAllowed(remote, c) ==> ok(target(c))
    ensures EveryTarget(ColumnOrders(cols, remote, target), ok)
  {
    if cols != [] {
      ColumnOrdersEvery(cols[..|cols| - 1], remote, target, ok);
    }
  }

  lemma {:induction false} AggregateOrdersEvery(fields: seq<(string, Value)>, t: Table, join: Join, filter: Option<BoolExp>, remote: TableCtx,
    ok: OrderTarget -> bool)
    requires forall aggFn, over: Option<string> :: (over.Some? ==> ColumnAllowed(remote, over.value)) ==>
      ok(ByAggregate(t, join, aggFn, over, filter))
    ensures EveryTarget(AggregateOrders(fields, t, join, filter, remote), ok)
  {
    if fields != [] {
      var n := |fields| - 1;
      AggregateOrdersEvery(fields[..n], t, join, filter, remote, ok);
      var aggFn := fields[n].0;
      if aggFn != "count" && fields[n].1.Obj? {
        ColumnOrdersEvery(fields[n].1.fields, remote, c => ByAggregate(t, join, aggFn, Some(c), filter), ok);
      }
    }
  }

  /** The related table is one the role has, read through the role's filter. */
  predicate OwnFilter(t: Table, filter: Option<BoolExp>, md: Metadata, s: Session) {
    var remote := TableCtxOf(md, t, s);
    remote.Some? && CombinedFilter(remote.value.perms, remote.value, md, s) == Ok(filter)
  }

  predicate GrantedAt(t: Table, column: string, md: Metadata, s: Session) {
    TableCtxOf(md, t, s).Some? && ColumnAllowed(TableCtxOf(md, t, s).value, column)
  }

  /** A target the planner may produce for the role. */
  predicate Planned(target: OrderTarget, ctx: TableCtx, md: Metadata, s: Session) {
    match target
    case ByColumn(c) => ColumnAllowed(ctx, c)
    case ByRelated(t, _, c, filter) => OwnFilter(t, filter, md, s) && GrantedAt(t, c, md, s)
    case ByAggregate(t, _, _, over, filter) => OwnFilter(t, filter, md, s) && (over.Some? ==> GrantedAt(t, over.value, md, s))
  }

  function PlannedTest(ctx: TableCtx, md: Metadata, s: Session): OrderTarget -> bool {
    target => Planned(target, ctx, md, s)
  }

  lemma {:induction false} RelatedOrdersPlanned(t: Table, join: Join, aggregate: bool, v: Value, ctx: TableCtx, md: Metadata, s: Session)
    ensures EveryTarget(RelatedOrders(t, join, aggregate, v, md, s), PlannedTest(ctx, md, s))
  {
    var remote := TableCtxOf(md, t, s);
    if remote.Some? && v.Obj? {
      var filter := CombinedFilter(remote.value.perms, remote.value, md, s);
      if filter.Ok? {
        if aggregate {
          AggregateOrdersEvery(v.fields, t, join, filter.value, remote.value, PlannedTest(ctx, md, s));
        } else {
          ColumnOrdersEvery(v.fields, remote.value, c => ByRelated(t, join, c, filter.value), PlannedTest(ctx, md, s));
        }
      }
    }
  }

  lemma {:induction false} OrderFieldPlanned(key: string, v: Value, ctx: TableCtx, md: Metadata, s: Session)
    ensures EveryTarget(OrderField(key, v, ctx, md, s), PlannedTest(ctx, md, s))
  {
    if !ColumnAllowed(ctx, key) {
      var rel := OrderRel(ctx.entry, key);
      if rel.Some? && rel.value.0.target.Some? {
        RelatedOrdersPlanned(rel.value.0.target.value.0, rel.value.0.target.value.1, rel.value.1, v, ctx, md, s);
      }
    }
  }

  lemma {:induction false} OrderFieldsPlanned(fields: seq<(string, Value)>, ctx: TableCtx, md: Metadata, s: Session)
    ensures EveryTarget(OrderFields(fields, ctx, md, s), PlannedTest(ctx, md, s))
  {
    if fields != [] {
      var n := |fields| - 1;
      OrderFieldsPlanned(fields[..n], ctx, md, s);
      OrderFieldPlanned(fields[n].0, fields[n].1, ctx, md, s);
    }
  }

  lemma {:induction false} OrderItemsPlanned(items: seq<Value>, ctx: TableCtx, md: Metadata, s: Session)
    ensures EveryTarget(OrderItems(items, ctx, md, s), PlannedTest(ctx, md, s))
  {
    if items != [] {
      var n := |items| - 1;
      OrderItemsPlanned(items[..n], ctx, md, s);
      if items[n].Obj? {
        OrderFieldsPlanned(items[n].fields, ctx, md, s);
      }
    }
  }

  /** Main result: whatever JSON a client sends, an accepted ordering uses only
      columns granted to the role and reads other tables only through the role's
      own filter on them. */
  lemma {:induction false} OrderByPlanned(v: Value, ctx: TableCtx, md: Metadata, s: Session)
    requires ParseOrderBy(v, ctx, md, s).Ok?
    ensures
      var order := ParseOrderBy(v, ctx, md, s).value;
      forall i :: 0 <= i < |order| ==> Planned(order[i].target, ctx, md, s)
  {
    OrderItemsPlanned(if v.Arr? then v.items else [v], ctx, md, s);
    var order := ParseOrderBy(v, ctx, md, s).value;
    forall i | 0 <= i < |order| ensures Planned(order[i].target, ctx, md, s) {
      assert PlannedTest(ctx, md, s)(order[i].target);
    }
  }
}
