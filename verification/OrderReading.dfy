/** What `order_by` JSON asks for, read from the JSON itself: which of two rows is to
    come first. The leftmost entry on which they differ decides. */
module OrderReading {
  import opened Values
  import opened Database
  import opened Ir
  import opened Planner
  import opened Meaning
  import opened FilterReading
  import opened Outcomes

  predicate Ascends(word: Value) {
    word == Text("asc") || word == Text("asc_nulls_first") || word == Text("asc_nulls_last")
  }

  /** NULL comes first where the word says so, and by default when descending. */
  predicate NullsLead(word: Value) {
    word == Text("asc_nulls_first") || word == Text("desc") || word == Text("desc_nulls_first")
  }

  /** Two cells under a word. */
  function ByWord(eng: Engine, word: Value, x: Value, y: Value): Outcome {
    if x == y then Tie
    else if x.Null? then if NullsLead(word) then Sooner else Later
    else if y.Null? then if NullsLead(word) then Later else Sooner
    else if Ascends(word) then Settle(eng.less(x, y), eng.less(y, x))
    else Settle(eng.less(y, x), eng.less(x, y))
  }

  // ----- related rows -----

  /** The joined rows that the role sees, in table order. */
  ghost function SeenBehind(t: Table, join: Join, q: Scope, row: Row): seq<Row>
    requires !q.perm && t in q.md.tables
  {
    var rows := Rows(q.db, t);
    Keep(rows, seq(|rows|, i requires 0 <= i < |rows| => Joined(join, row, rows[i]) && SomePermissionReads(TableAt(t, q), q, rows[i], rows[i])))
  }

  /** A column of the first of them. */
  ghost function RelatedCell(t: Table, join: Join, column: string, q: Scope, row: Row): Value
    requires !q.perm && t in q.md.tables
  {
    FirstColumn(SeenBehind(t, join, q, row), column)
  }

  /** How many they are. */
  ghost function RelatedCount(t: Table, join: Join, q: Scope, row: Row): Value
    requires !q.perm && t in q.md.tables
  {
    Num(|SeenBehind(t, join, q, row)|)
  }

  /** A function over one of their columns. */
  ghost function RelatedAggregate(t: Table, join: Join, aggFn: string, column: string, q: Scope, row: Row): Value
    requires !q.perm && t in q.md.tables
  {
    q.db.engine.aggregate(aggFn, ColumnOf(SeenBehind(t, join, q, row), column))
  }

  ghost function AmongTarget(rels: seq<Rel>, name: string): (r: Option<(Table, Join)>)
    ensures r.Some? ==> Leads(rels, name, r)
    ensures r.None? ==> forall t, join :: !Leads(rels, name, Some((t, join)))
  {
    if exists t, join :: Leads(rels, name, Some((t, join))) then
      var t, join :| Leads(rels, name, Some((t, join)));
      Some((t, join))
    else None
  }

  /** The relationship behind an aggregate key. */
  function Base(key: string): Option<string> {
    if |key| >= 10 && key[|key| - 10..] == "_aggregate" then Some(key[..|key| - 10]) else None
  }

  ghost predicate OrdersByMany(entry: TableEntry, key: string) {
    Base(key).Some? && !Unnamed(entry.arrayRels, Base(key).value)
  }

  // ----- the JSON -----

  ghost function ColumnOutcomes(cols: seq<(string, Value)>, t: Table, join: Join, q: Scope, a: Row, b: Row): (r: seq<Outcome>)
    requires !q.perm && t in q.md.tables
    ensures |r| == |cols| && forall i :: 0 <= i < |cols| ==>
      r[i] == ByWord(q.db.engine, cols[i].1, RelatedCell(t, join, cols[i].0, q, a), RelatedCell(t, join, cols[i].0, q, b))
  {
    seq(|cols|, i requires 0 <= i < |cols| =>
      ByWord(q.db.engine, cols[i].1, RelatedCell(t, join, cols[i].0, q, a), RelatedCell(t, join, cols[i].0, q, b)))
  }

  ghost function OverOutcomes(aggFn: string, cols: seq<(string, Value)>, t: Table, join: Join, q: Scope, a: Row, b: Row): (r: seq<Outcome>)
    requires !q.perm && t in q.md.tables
    ensures |r| == |cols| && forall i :: 0 <= i < |cols| ==>
      r[i] == ByWord(q.db.engine, cols[i].1, RelatedAggregate(t, join, aggFn, cols[i].0, q, a), RelatedAggregate(t, join, aggFn, cols[i].0, q, b))
  {
    seq(|cols|, i requires 0 <= i < |cols| =>
      ByWord(q.db.engine, cols[i].1, RelatedAggregate(t, join, aggFn, cols[i].0, q, a), RelatedAggregate(t, join, aggFn, cols[i].0, q, b)))
  }

  /** `count`, or a function over columns. */
  ghost function AggregateOutcome(aggFn: string, v: Value, t: Table, join: Join, q: Scope, a: Row, b: Row): Outcome
    requires !q.perm && t in q.md.tables
  {
    if aggFn == "count" then ByWord(q.db.engine, v, RelatedCount(t, join, q, a), RelatedCount(t, join, q, b))
    else if v.Obj? then Leftmost(OverOutcomes(aggFn, v.fields, t, join, q, a, b))
    else Tie
  }

  ghost function AggregateOutcomes(fields: seq<(string, Value)>, t: Table, join: Join, q: Scope, a: Row, b: Row): (r: seq<Outcome>)
    requires !q.perm && t in q.md.tables
    ensures |r| == |fields| && forall i :: 0 <= i < |fields| ==> r[i] == AggregateOutcome(fields[i].0, fields[i].1, t, join, q, a, b)
  {
    seq(|fields|, i requires 0 <= i < |fields| => AggregateOutcome(fields[i].0, fields[i].1, t, join, q, a, b))
  }

  /** One entry: a granted column, an aggregate over an array relationship, or
      columns of an object relationship. */
  ghost function EntryOutcome(key: string, v: Value, ctx: TableCtx, q: Scope, a: Row, b: Row): Outcome
    requires !q.perm
  {
    if IsColumn(ctx, key, false) then ByWord(q.db.engine, v, Get(a, key), Get(b, key))
    else
      var many := OrdersByMany(ctx.entry, key);
      var target := if many then AmongTarget(ctx.entry.arrayRels, Base(key).value) else AmongTarget(ctx.entry.objectRels, key);
      if target.None? || target.value.0 !in q.md.tables || !v.Obj? then Tie
      else if many then Leftmost(AggregateOutcomes(v.fields, target.value.0, target.value.1, q, a, b))
      else Leftmost(ColumnOutcomes(v.fields, target.value.0, target.value.1, q, a, b))
  }

  ghost function EntryOutcomes(fields: seq<(string, Value)>, ctx: TableCtx, q: Scope, a: Row, b: Row): (r: seq<Outcome>)
    requires !q.perm
    ensures |r| == |fields| && forall i :: 0 <= i < |fields| ==> r[i] == EntryOutcome(fields[i].0, fields[i].1, ctx, q, a, b)
  {
    seq(|fields|, i requires 0 <= i < |fields| => EntryOutcome(fields[i].0, fields[i].1, ctx, q, a, b))
  }

  ghost function ItemOutcome(item: Value, ctx: TableCtx, q: Scope, a: Row, b: Row): Outcome
    requires !q.perm
  {
    if item.Obj? then Leftmost(EntryOutcomes(item.fields, ctx, q, a, b)) else Tie
  }

  ghost function ItemOutcomes(items: seq<Value>, ctx: TableCtx, q: Scope, a: Row, b: Row): (r: seq<Outcome>)
    requires !q.perm
    ensures |r| == |items| && forall i :: 0 <= i < |items| ==> r[i] == ItemOutcome(items[i], ctx, q, a, b)
  {
    seq(|items|, i requires 0 <= i < |items| => ItemOutcome(items[i], ctx, q, a, b))
  }

  /** Which of two rows an `order_by` puts first: an object, or a list of objects. */
  ghost function Comes(v: Value, ctx: TableCtx, q: Scope, a: Row, b: Row): Outcome
    requires !q.perm
  {
    if v.Arr? then Leftmost(ItemOutcomes(v.items, ctx, q, a, b)) else ItemOutcome(v, ctx, q, a, b)
  }
}
