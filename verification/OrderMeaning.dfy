/** The planned ordering puts rows where the `order_by` JSON says. */
module OrderMeaning {
  import opened Values
  import opened Database
  import opened Ir
  import opened Planner
  import opened OrderPlan
  import opened Meaning
  import opened FilterReading
  import opened FilterReadingCorrect
  import opened FilterMeaning
  import opened OrderReading
  import opened Outcomes

  // ----- outcomes of a planned ordering -----

  lemma {:induction false} WordMeans(eng: Engine, word: Value, spec: SortSpec, x: Value, y: Value)
    requires OrderPlan.Direction(word) == Ok(spec)
    ensures SpecOutcome(eng, spec, x, y) == ByWord(eng, word, x, y)
  {
  }

  ghost function PlannedOutcomes(order: seq<OrderBy>, db: Db, a: Row, b: Row): (r: seq<Outcome>)
    ensures |r| == |order| && forall i :: 0 <= i < |order| ==>
      r[i] == SpecOutcome(db.engine, order[i].spec, OrderKey(order[i].target, a, db), OrderKey(order[i].target, b, db))
  {
    seq(|order|, i requires 0 <= i < |order| =>
      SpecOutcome(db.engine, order[i].spec, OrderKey(order[i].target, a, db), OrderKey(order[i].target, b, db)))
  }

  /** One more part of an ordering is one more outcome. */
  lemma {:induction false} PartMeans(init: seq<OrderBy>, last: seq<OrderBy>, outcomes: seq<Outcome>, db: Db, a: Row, b: Row)
    requires outcomes != [] && Leftmost(PlannedOutcomes(init, db, a, b)) == Leftmost(outcomes[..|outcomes| - 1])
    requires Leftmost(PlannedOutcomes(last, db, a, b)) == outcomes[|outcomes| - 1]
    ensures Leftmost(PlannedOutcomes(init + last, db, a, b)) == Leftmost(outcomes)
  {
    LeftmostConcat(PlannedOutcomes(init, db, a, b), PlannedOutcomes(last, db, a, b));
    assert PlannedOutcomes(init + last, db, a, b) == PlannedOutcomes(init, db, a, b) + PlannedOutcomes(last, db, a, b);
  }

  lemma {:induction false} SingleMeans(target: OrderTarget, word: Value, db: Db, a: Row, b: Row)
    requires Single(target, word).Ok?
    ensures Leftmost(PlannedOutcomes(Single(target, word).value, db, a, b)) ==
            ByWord(db.engine, word, OrderKey(target, a, db), OrderKey(target, b, db))
  {
    var order := Single(target, word).value;
    WordMeans(db.engine, word, order[0].spec, OrderKey(target, a, db), OrderKey(target, b, db));
    var outcomes := PlannedOutcomes(order, db, a, b);
    assert outcomes == [outcomes[0]] && outcomes[..0] == [];
    assert Leftmost(outcomes[..0]).Tie?;
  }

  // ----- related rows -----

  lemma {:induction false} BehindMeans(t: Table, join: Join, filter: Option<BoolExp>, remote: TableCtx, q: Scope, row: Row)
    requires !q.perm && TableCtxOf(q.md, t, q.s) == Some(remote) && CombinedFilter(remote.perms, remote, q.md, q.s) == Ok(filter)
    ensures t in q.md.tables && Matching(Rows(q.db, t), Outer(join, row), filter, q.db) == SeenBehind(t, join, q, row)
  {
    var rows := Rows(q.db, t);
    assert remote == TableAt(t, q);
    forall i | 0 <= i < |rows|
      ensures Selected(Outer(join, row), filter, q.db, rows[i]) == (Joined(join, row, rows[i]) && SomePermissionReads(remote, q, rows[i], rows[i]))
    {
      PermissionsMean(remote.perms, remote, q, rows[i], rows[i]);
    }
    assert seq(|rows|, i requires 0 <= i < |rows| => Selected(Outer(join, row), filter, q.db, rows[i])) ==
           seq(|rows|, i requires 0 <= i < |rows| => Joined(join, row, rows[i]) && SomePermissionReads(remote, q, rows[i], rows[i]));
  }

  type CellReading = (string, Row) -> Value

  ghost function CellOutcomes(cols: seq<(string, Value)>, cell: CellReading, eng: Engine, a: Row, b: Row): (r: seq<Outcome>)
    ensures |r| == |cols| && forall i :: 0 <= i < |cols| ==> r[i] == ByWord(eng, cols[i].1, cell(cols[i].0, a), cell(cols[i].0, b))
  {
    seq(|cols|, i requires 0 <= i < |cols| => ByWord(eng, cols[i].1, cell(cols[i].0, a), cell(cols[i].0, b)))
  }

  lemma {:induction false} ColumnsMean(cols: seq<(string, Value)>, remote: TableCtx, target: string -> OrderTarget, cell: CellReading, db: Db,
    a: Row, b: Row)
    requires forall c, r :: OrderKey(target(c), r, db) == cell(c, r)
    requires ColumnOrders(cols, remote, target).Ok?
    ensures Leftmost(PlannedOutcomes(ColumnOrders(cols, remote, target).value, db, a, b)) == Leftmost(CellOutcomes(cols, cell, db.engine, a, b))
  {
    var outcomes := CellOutcomes(cols, cell, db.engine, a, b);
    if cols == [] {
      assert PlannedOutcomes(ColumnOrders(cols, remote, target).value, db, a, b) == [];
    } else {
      var n := |cols| - 1;
      var (c, word) := cols[n];
      ColumnsMean(cols[..n], remote, target, cell, db, a, b);
      assert outcomes[..n] == CellOutcomes(cols[..n], cell, db.engine, a, b);
      SingleMeans(target(c), word, db, a, b);
      PartMeans(ColumnOrders(cols[..n], remote, target).value, Single(target(c), word).value, outcomes, db, a, b);
    }
  }

  lemma {:induction false} RelatedColumnsMean(cols: seq<(string, Value)>, t: Table, join: Join, filter: Option<BoolExp>, remote: TableCtx, q: Scope,
    target: string -> OrderTarget, a: Row, b: Row)
    requires !q.perm && TableCtxOf(q.md, t, q.s) == Some(remote) && CombinedFilter(remote.perms, remote, q.md, q.s) == Ok(filter)
    requires (forall c :: target(c) == ByRelated(t, join, c, filter)) && ColumnOrders(cols, remote, target).Ok?
    ensures t in q.md.tables &&
            Leftmost(PlannedOutcomes(ColumnOrders(cols, remote, target).value, q.db, a, b)) == Leftmost(ColumnOutcomes(cols, t, join, q, a, b))
  {
    var cell: CellReading := (c: string, r: Row) => RelatedCell(t, join, c, q, r);
    forall c, r ensures OrderKey(target(c), r, q.db) == cell(c, r) {
      BehindMeans(t, join, filter, remote, q, r);
    }
    ColumnsMean(cols, remote, target, cell, q.db, a, b);
    assert CellOutcomes(cols, cell, q.db.engine, a, b) == ColumnOutcomes(cols, t, join, q, a, b);
  }

  lemma {:induction false} OverColumnsMean(aggFn: string, cols: seq<(string, Value)>, t: Table, join: Join, filter: Option<BoolExp>, remote: TableCtx,
    q: Scope, target: string -> OrderTarget, a: Row, b: Row)
    requires !q.perm && TableCtxOf(q.md, t, q.s) == Some(remote) && CombinedFilter(remote.perms, remote, q.md, q.s) == Ok(filter)
    requires (forall c :: target(c) == ByAggregate(t, join, aggFn, Some(c), filter)) && ColumnOrders(cols, remote, target).Ok?
    ensures t in q.md.tables &&
            Leftmost(PlannedOutcomes(ColumnOrders(cols, remote, target).value, q.db, a, b)) ==
            Leftmost(OverOutcomes(aggFn, cols, t, join, q, a, b))
  {
    var cell: CellReading := (c: string, r: Row) => RelatedAggregate(t, join, aggFn, c, q, r);
    forall c, r ensures OrderKey(target(c), r, q.db) == cell(c, r) {
      BehindMeans(t, join, filter, remote, q, r);
    }
    ColumnsMean(cols, remote, target, cell, q.db, a, b);
    assert CellOutcomes(cols, cell, q.db.engine, a, b) == OverOutcomes(aggFn, cols, t, join, q, a, b);
  }

  lemma {:induction false} AggregateMeans(aggFn: string, v: Value, t: Table, join: Join, filter: Option<BoolExp>, remote: TableCtx, q: Scope, a: Row, b: Row)
    requires !q.perm && TableCtxOf(q.md, t, q.s) == Some(remote) && CombinedFilter(remote.perms, remote, q.md, q.s) == Ok(filter)
    requires AggregateOrder(aggFn, v, t, join, filter, remote).Ok?
    ensures t in q.md.tables &&
            Leftmost(PlannedOutcomes(AggregateOrder(aggFn, v, t, join, filter, remote).value, q.db, a, b)) ==
            AggregateOutcome(aggFn, v, t, join, q, a, b)
  {
    if aggFn == "count" {
      BehindMeans(t, join, filter, remote, q, a);
      BehindMeans(t, join, filter, remote, q, b);
      SingleMeans(ByAggregate(t, join, "count", None, filter), v, q.db, a, b);
    } else {
      OverColumnsMean(aggFn, v.fields, t, join, filter, remote, q, c => ByAggregate(t, join, aggFn, Some(c), filter), a, b);
    }
  }

  lemma {:induction false} AggregatesMean(fields: seq<(string, Value)>, t: Table, join: Join, filter: Option<BoolExp>, remote: TableCtx, q: Scope,
    a: Row, b: Row)
    requires !q.perm && TableCtxOf(q.md, t, q.s) == Some(remote) && CombinedFilter(remote.perms, remote, q.md, q.s) == Ok(filter)
    requires AggregateOrders(fields, t, join, filter, remote).Ok?
    ensures t in q.md.tables &&
            Leftmost(PlannedOutcomes(AggregateOrders(fields, t, join, filter, remote).value, q.db, a, b)) ==
            Leftmost(AggregateOutcomes(fields, t, join, q, a, b))
  {
    if fields == [] {
      assert PlannedOutcomes([], q.db, a, b) == [];
    } else {
      var n := |fields| - 1;
      AggregatesMean(fields[..n], t, join, filter, remote, q, a, b);
      AggregateMeans(fields[n].0, fields[n].1, t, join, filter, remote, q, a, b);
      var outcomes := AggregateOutcomes(fields, t, join, q, a, b);
      assert outcomes[..n] == AggregateOutcomes(fields[..n], t, join, q, a, b);
      PartMeans(AggregateOrders(fields[..n], t, join, filter, remote).value, AggregateOrder(fields[n].0, fields[n].1, t, join, filter, remote).value,
        outcomes, q.db, a, b);
    }
  }

  // ----- entries -----

  lemma {:induction false} AmongSame(rels: seq<Rel>, name: string)
    ensures AmongTarget(rels, name) == if FindRel(rels, name).Some? then FindRel(rels, name).value.target else None
  {
    var r, target := FindRel(rels, name), AmongTarget(rels, name);
    if r.Some? && r.value.target.Some? {
      LeadsFirst(rels, name, r.value.target);
      assert Leads(rels, name, Some((r.value.target.value.0, r.value.target.value.1)));
    }
    if target.Some? {
      LeadsFirst(rels, name, target);
    }
  }

  /** Both readings of an entry's key find the same relationship. */
  lemma {:induction false} OrderRelSame(entry: TableEntry, key: string)
    requires OrderRel(entry, key).Some?
    ensures
      var (rel, many) := OrderRel(entry, key).value;
      many == OrdersByMany(entry, key) &&
      rel.target == if many then AmongTarget(entry.arrayRels, Base(key).value) else AmongTarget(entry.objectRels, key)
  {
    var cut := |key| - |Suffix()|;
    if cut >= 0 && key[cut..] == Suffix() {
      assert Base(key) == Some(key[..cut]);
      LeadsFirst(entry.arrayRels, key[..cut], None);
      AmongSame(entry.arrayRels, key[..cut]);
    }
    AmongSame(entry.objectRels, key);
  }

  lemma {:induction false} EntryMeans(key: string, v: Value, ctx: TableCtx, q: Scope, a: Row, b: Row)
    requires !q.perm && OrderField(key, v, ctx, q.md, q.s).Ok?
    ensures Leftmost(PlannedOutcomes(OrderField(key, v, ctx, q.md, q.s).value, q.db, a, b)) == EntryOutcome(key, v, ctx, q, a, b)
  {
    if IsColumn(ctx, key, false) {
      SingleMeans(ByColumn(key), v, q.db, a, b);
    } else {
      OrderRelSame(ctx.entry, key);
      var (rel, many) := OrderRel(ctx.entry, key).value;
      var (t, join) := rel.target.value;
      var remote := TableCtxOf(q.md, t, q.s).value;
      var filter := CombinedFilter(remote.perms, remote, q.md, q.s).value;
      if many {
        AggregatesMean(v.fields, t, join, filter, remote, q, a, b);
      } else {
        RelatedColumnsMean(v.fields, t, join, filter, remote, q, c => ByRelated(t, join, c, filter), a, b);
      }
    }
  }

  lemma {:induction false} EntriesMean(fields: seq<(string, Value)>, ctx: TableCtx, q: Scope, a: Row, b: Row)
    requires !q.perm && OrderFields(fields, ctx, q.md, q.s).Ok?
    ensures Leftmost(PlannedOutcomes(OrderFields(fields, ctx, q.md, q.s).value, q.db, a, b)) == Leftmost(EntryOutcomes(fields, ctx, q, a, b))
  {
    if fields == [] {
      assert PlannedOutcomes([], q.db, a, b) == [];
    } else {
      var n := |fields| - 1;
      EntriesMean(fields[..n], ctx, q, a, b);
      EntryMeans(fields[n].0, fields[n].1, ctx, q, a, b);
      var outcomes := EntryOutcomes(fields, ctx, q, a, b);
      assert outcomes[..n] == EntryOutcomes(fields[..n], ctx, q, a, b);
      PartMeans(OrderFields(fields[..n], ctx, q.md, q.s).value, OrderField(fields[n].0, fields[n].1, ctx, q.md, q.s).value, outcomes, q.db, a, b);
    }
  }

  lemma {:induction false} ItemsMean(items: seq<Value>, ctx: TableCtx, q: Scope, a: Row, b: Row)
    requires !q.perm && OrderItems(items, ctx, q.md, q.s).Ok?
    ensures Leftmost(PlannedOutcomes(OrderItems(items, ctx, q.md, q.s).value, q.db, a, b)) == Leftmost(ItemOutcomes(items, ctx, q, a, b))
  {
    if items == [] {
      assert PlannedOutcomes([], q.db, a, b) == [];
    } else {
      var n := |items| - 1;
      ItemsMean(items[..n], ctx, q, a, b);
      EntriesMean(items[n].fields, ctx, q, a, b);
      var outcomes := ItemOutcomes(items, ctx, q, a, b);
      assert outcomes[..n] == ItemOutcomes(items[..n], ctx, q, a, b);
      PartMeans(OrderItems(items[..n], ctx, q.md, q.s).value, OrderFields(items[n].fields, ctx, q.md, q.s).value, outcomes, q.db, a, b);
    }
  }

  /** Main result about the plan: its leftmost outcome is what the JSON says. */
  lemma {:induction false} OrderMeans(v: Value, ctx: TableCtx, q: Scope, a: Row, b: Row)
    requires !q.perm && ParseOrderBy(v, ctx, q.md, q.s).Ok?
    ensures Leftmost(PlannedOutcomes(ParseOrderBy(v, ctx, q.md, q.s).value, q.db, a, b)) == Comes(v, ctx, q, a, b)
  {
    var items := if v.Arr? then v.items else [v];
    ItemsMean(items, ctx, q, a, b);
    if !v.Arr? {
      var outcomes := ItemOutcomes(items, ctx, q, a, b);
      assert outcomes == [outcomes[0]] && outcomes[..0] == [];
      assert Leftmost(outcomes[..0]).Tie?;
    }
  }
}
