/** `parse_order_by` as it runs: nested loops that push onto one output list, with
    an early return on the first error. */
module OrderLoops {
  import opened Values
  import opened Database
  import opened Ir
  import opened Planner
  import opened OrderPlan
  import PlannerLoops

  // ----- an error in a prefix is the error of the whole -----

  lemma {:induction false} ColumnsStop(cols: seq<(string, Value)>, i: nat, remote: TableCtx, target: string -> OrderTarget)
    requires i < |cols|
    ensures
      var upTo := ColumnOrders(cols[..i + 1], remote, target);
      upTo.Err? ==> ColumnOrders(cols, remote, target) == upTo
  {
    if i + 1 == |cols| {
      assert cols[..i + 1] == cols;
    } else {
      var n := |cols| - 1;
      assert cols[..n][..i + 1] == cols[..i + 1];
      ColumnsStop(cols[..n], i, remote, target);
    }
  }

  lemma {:induction false} AggregatesStop(fields: seq<(string, Value)>, i: nat, t: Table, join: Join, filter: Option<BoolExp>, remote: TableCtx)
    requires i < |fields|
    ensures
      var upTo := AggregateOrders(fields[..i + 1], t, join, filter, remote);
      upTo.Err? ==> AggregateOrders(fields, t, join, filter, remote) == upTo
  {
    if i + 1 == |fields| {
      assert fields[..i + 1] == fields;
    } else {
      var n := |fields| - 1;
      assert fields[..n][..i + 1] == fields[..i + 1];
      AggregatesStop(fields[..n], i, t, join, filter, remote);
    }
  }

  lemma {:induction false} FieldsStop(fields: seq<(string, Value)>, i: nat, ctx: TableCtx, md: Metadata, s: Session)
    requires i < |fields|
    ensures
      var upTo := OrderFields(fields[..i + 1], ctx, md, s);
      upTo.Err? ==> OrderFields(fields, ctx, md, s) == upTo
  {
    if i + 1 == |fields| {
      assert fields[..i + 1] == fields;
    } else {
      var n := |fields| - 1;
      assert fields[..n][..i + 1] == fields[..i + 1];
      FieldsStop(fields[..n], i, ctx, md, s);
    }
  }

  lemma {:induction false} ItemsStop(items: seq<Value>, i: nat, ctx: TableCtx, md: Metadata, s: Session)
    requires i < |items|
    ensures
      var upTo := OrderItems(items[..i + 1], ctx, md, s);
      upTo.Err? ==> OrderItems(items, ctx, md, s) == upTo
  {
    if i + 1 == |items| {
      assert items[..i + 1] == items;
    } else {
      var n := |items| - 1;
      assert items[..n][..i + 1] == items[..i + 1];
      ItemsStop(items[..n], i, ctx, md, s);
    }
  }

  // ----- the loops -----

  method ParseColumns(cols: seq<(string, Value)>, remote: TableCtx, target: string -> OrderTarget) returns (r: Result<seq<OrderBy>, PlanError>)
    ensures r == ColumnOrders(cols, remote, target)
  {
    var out: seq<OrderBy> := [];
    for i := 0 to |cols|
      invariant ColumnOrders(cols[..i], remote, target) == Ok(out)
    {
      assert cols[..i + 1][..i] == cols[..i];
      ColumnsStop(cols, i, remote, target);
      if !ColumnAllowed(remote, cols[i].0) {
        return Err(Invalid);
      }
      var spec := OrderPlan.Direction(cols[i].1);
      if spec.Err? {
        return Err(spec.error);
      }
      out := out + [OrderBy(target(cols[i].0), spec.value)];
    }
    assert cols[..|cols|] == cols;
    r := Ok(out);
  }

  method ParseAggregates(fields: seq<(string, Value)>, t: Table, join: Join, filter: Option<BoolExp>, remote: TableCtx)
    returns (r: Result<seq<OrderBy>, PlanError>)
    ensures r == AggregateOrders(fields, t, join, filter, remote)
  {
    var out: seq<OrderBy> := [];
    for i := 0 to |fields|
      invariant AggregateOrders(fields[..i], t, join, filter, remote) == Ok(out)
    {
      assert fields[..i + 1][..i] == fields[..i];
      AggregatesStop(fields, i, t, join, filter, remote);
      var part := ParseAggregate(fields[i].0, fields[i].1, t, join, filter, remote);
      if part.Err? {
        return part;
      }
      out := out + part.value;
    }
    assert fields[..|fields|] == fields;
    r := Ok(out);
  }

  method ParseAggregate(aggFn: string, v: Value, t: Table, join: Join, filter: Option<BoolExp>, remote: TableCtx)
    returns (r: Result<seq<OrderBy>, PlanError>)
    ensures r == AggregateOrder(aggFn, v, t, join, filter, remote)
  {
    if aggFn == "count" {
      r := Single(ByAggregate(t, join, "count", None, filter), v);
    } else if !v.Obj? {
      r := Err(Invalid);
    } else {
      r := ParseColumns(v.fields, remote, c => ByAggregate(t, join, aggFn, Some(c), filter));
    }
  }

  method ParseField(key: string, v: Value, ctx: TableCtx, md: Metadata, s: Session) returns (r: Result<seq<OrderBy>, PlanError>)
    ensures r == OrderField(key, v, ctx, md, s)
  {
    if ColumnAllowed(ctx, key) {
      return Single(ByColumn(key), v);
    }
    var rel := OrderRel(ctx.entry, key);
    if rel.None? || rel.value.0.target.None? {
      return Err(Invalid);
    }
    var (t, join) := rel.value.0.target.value;
    var remote := TableCtxOf(md, t, s);
    if remote.None? {
      return Err(Invalid);
    }
    var filter := PlannerLoops.CombineFilters(remote.value.perms, remote.value, md, s);
    if filter.Err? {
      return Err(filter.error);
    }
    if !v.Obj? {
      return Err(Invalid);
    }
    if rel.value.1 {
      r := ParseAggregates(v.fields, t, join, filter.value, remote.value);
    } else {
      r := ParseColumns(v.fields, remote.value, c => ByRelated(t, join, c, filter.value));
    }
  }

  method ParseFields(fields: seq<(string, Value)>, ctx: TableCtx, md: Metadata, s: Session) returns (r: Result<seq<OrderBy>, PlanError>)
    ensures r == OrderFields(fields, ctx, md, s)
  {
    var out: seq<OrderBy> := [];
    for i := 0 to |fields|
      invariant OrderFields(fields[..i], ctx, md, s) == Ok(out)
    {
      assert fields[..i + 1][..i] == fields[..i];
      FieldsStop(fields, i, ctx, md, s);
      var part := ParseField(fields[i].0, fields[i].1, ctx, md, s);
      if part.Err? {
        return part;
      }
      out := out + part.value;
    }
    assert fields[..|fields|] == fields;
    r := Ok(out);
  }

  method ParseOrder(v: Value, ctx: TableCtx, md: Metadata, s: Session) returns (r: Result<seq<OrderBy>, PlanError>)
    ensures r == ParseOrderBy(v, ctx, md, s)
  {
    var items := if v.Arr? then v.items else [v];
    var out: seq<OrderBy> := [];
    for i := 0 to |items|
      invariant OrderItems(items[..i], ctx, md, s) == Ok(out)
    {
      assert items[..i + 1][..i] == items[..i];
      ItemsStop(items, i, ctx, md, s);
      if !items[i].Obj? {
        return Err(Invalid);
      }
      var part := ParseFields(items[i].fields, ctx, md, s);
      if part.Err? {
        return part;
      }
      out := out + part.value;
    }
    assert items[..|items|] == items;
    r := Ok(out);
  }
}
