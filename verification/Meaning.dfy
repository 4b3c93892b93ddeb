/** What an IR query means: a direct nested-loop reading over rows, with no
    aliases, no environments and no SQL. */
module Meaning {
  import opened Values
  import opened Database
  import opened Ir

  /** `v IN items`: TRUE on a match, FALSE when certainly absent. */
  ghost function Member(v: Value, items: seq<Value>): Tri {
    if items == [] then False
    else if v.Null? then Unknown
    else if v in items then True
    else if Null in items then Unknown
    else False
  }

  function LitValues(eng: Engine, vs: seq<Value>, pgType: string): seq<Value> {
    seq(|vs|, i requires 0 <= i < |vs| => LitValue(eng, vs[i], pgType))
  }

  /** All join columns are equal and none is NULL. */
  predicate Joined(join: Join, local: Row, remote: Row) {
    forall k :: 0 <= k < |join| ==>
      !Get(local, join[k].0).Null? && Get(local, join[k].0) == Get(remote, join[k].1)
  }

  function JoinedRows(db: Db, table: Table, join: Join, local: Row): seq<Row> {
    var rows := Rows(db, table);
    Keep(rows, seq(|rows|, i requires 0 <= i < |rows| => Joined(join, local, rows[i])))
  }

  function FirstColumn(rows: seq<Row>, column: string): Value {
    if rows == [] then Null else Get(rows[0], column)
  }

  function ColumnOf(rows: seq<Row>, column: string): seq<Value> {
    seq(|rows|, i requires 0 <= i < |rows| => Get(rows[i], column))
  }

  function RowArgs(eng: Engine, args: seq<RowArg>, row: Row): seq<ArgVal> {
    seq(|args|, i requires 0 <= i < |args| =>
      match args[i]
      case EnclosingRow => RowVal(row)
      case SessionJson(json) => ScalarVal(eng.cast(Text(json), "json"))
      case Given(v, ty) => ScalarVal(LitValue(eng, v, ty)))
  }

  function FnArgs(eng: Engine, args: seq<FnArg>): seq<ArgVal> {
    seq(|args|, i requires 0 <= i < |args| =>
      var v := LitValue(eng, args[i].value, args[i].pgType);
      if args[i].name.Some? then NamedVal(args[i].name.value, v) else ScalarVal(v))
  }

  ghost function CompareTruth(op: CompareOp, pgType: string, l: Value, db: Db, row: Row, root: Row): Tri {
    match op
    case Bin(o, v) => EvalBin(db.engine, o, l, LitValue(db.engine, v, pgType))
    case BinAs(o, v, ty) => EvalBin(db.engine, o, l, LitValue(db.engine, v, ty))
    case In(vs) => Member(l, LitValues(db.engine, vs, pgType))
    case Nin(vs) => Not3(Member(l, LitValues(db.engine, vs, pgType)))
    case IsNull(yes) => Truth(l.Null? == yes)
    case Column(o, c, fromRoot) => EvalBin(db.engine, o, l, Get(if fromRoot then root else row, c))
    case ColumnRel(o, t, join, c) => EvalBin(db.engine, o, l, FirstColumn(JoinedRows(db, t, join, row), c))
  }

  /** The truth of a predicate on `row`; `root` is the row a `["$", col]`
      comparison refers to. */
  ghost function Holds(e: BoolExp, db: Db, row: Row, root: Row): Tri
    decreases e, 0
  {
    match e
    case And(exps) =>
      if exists i :: 0 <= i < |exps| && Holds(exps[i], db, row, root).False? then False
      else if forall i :: 0 <= i < |exps| ==> Holds(exps[i], db, row, root).True? then True
      else Unknown
    case Or(exps) =>
      if exists i :: 0 <= i < |exps| && Holds(exps[i], db, row, root).True? then True
      else if forall i :: 0 <= i < |exps| ==> Holds(exps[i], db, row, root).False? then False
      else Unknown
    case Not(exp) => Not3(Holds(exp, db, row, root))
    case Compare(c, ty, op) => CompareTruth(op, ty, Get(row, c), db, row, root)
    case ComputedCompare(fn, args, ty, op) =>
      CompareTruth(op, ty, db.engine.scalarFn(fn, RowArgs(db.engine, args, row)), db, row, root)
    case Relationship(t, join, p) =>
      Truth(SomeRelated(p, join, row, Rows(db, t), db, root))
    case RowFunctionExists(fn, args, p) =>
      Truth(SomeRelated(p, [], row, db.engine.rowFn(fn, RowArgs(db.engine, args, row)), db, root))
    case Exists(t, p) =>
      Truth(SomeOwn(p, Rows(db, t), db))
  }

  /** Some joined row satisfies `p`, still under the outer root. */
  ghost predicate SomeRelated(p: BoolExp, join: Join, local: Row, rows: seq<Row>, db: Db, root: Row)
    decreases p, 1
  {
    exists i :: 0 <= i < |rows| && Joined(join, local, rows[i]) && Holds(p, db, rows[i], root).True?
  }

  /** Some row satisfies `p` with itself as the root. */
  ghost predicate SomeOwn(p: BoolExp, rows: seq<Row>, db: Db)
    decreases p, 1
  {
    exists i :: 0 <= i < |rows| && Holds(p, db, rows[i], rows[i]).True?
  }

  lemma {:induction false} AndOfTwo(e: BoolExp, db: Db, row: Row, root: Row)
    requires e.And? && |e.exps| == 2
    ensures Holds(e, db, row, root) == And3(Holds(e.exps[0], db, row, root), Holds(e.exps[1], db, row, root))
  {
    var a, b := Holds(e.exps[0], db, row, root), Holds(e.exps[1], db, row, root);
    if a.False? || b.False? {
      assert Holds(e, db, row, root).False?;
    } else if a.True? && b.True? {
      assert Holds(e, db, row, root).True?;
    }
  }

  /** A row filter on its own row; no filter accepts every row. */
  ghost predicate Passes(filter: Option<BoolExp>, db: Db, row: Row) {
    filter.None? || Holds(filter.value, db, row, row).True?
  }

  /** The enclosing row of a correlated select and the join to it. */
  datatype Outer = NoOuter | Outer(join: Join, row: Row)

  ghost predicate Selected(outer: Outer, filter: Option<BoolExp>, db: Db, row: Row) {
    (outer.NoOuter? || Joined(outer.join, outer.row, row)) && Passes(filter, db, row)
  }

  ghost function Matching(rows: seq<Row>, outer: Outer, filter: Option<BoolExp>, db: Db): seq<Row> {
    Keep(rows, seq(|rows|, i requires 0 <= i < |rows| => Selected(outer, filter, db, rows[i])))
  }

  ghost function OrderKey(target: OrderTarget, row: Row, db: Db): Value {
    match target
    case ByColumn(c) => Get(row, c)
    case ByRelated(t, join, c, p) => FirstColumn(Matching(Rows(db, t), Outer(join, row), p, db), c)
    case ByAggregate(t, join, aggFn, over, p) =>
      var rows := Matching(Rows(db, t), Outer(join, row), p, db);
      if over.None? then Num(|rows|) else db.engine.aggregate(aggFn, ColumnOf(rows, over.value))
  }

  ghost function OrderKeys(orderBy: seq<OrderBy>, row: Row, db: Db): (keys: seq<Value>)
    ensures |keys| == |orderBy|
  {
    seq(|orderBy|, i requires 0 <= i < |orderBy| => OrderKey(orderBy[i].target, row, db))
  }

  ghost function Ordered(rows: seq<Row>, orderBy: seq<OrderBy>, db: Db): seq<Row> {
    SortRows(db.engine, Specs(orderBy), rows,
      seq(|rows|, i requires 0 <= i < |rows| => OrderKeys(orderBy, rows[i], db)))
  }

  ghost function SourceRows(source: FromSource, outer: Outer, db: Db): seq<Row> {
    match source
    case Scan(t) => Rows(db, t)
    case Function(fn, args) => db.engine.rowFn(fn, FnArgs(db.engine, args))
    case RowFunction(fn, args) =>
      if outer.NoOuter? then [] else db.engine.rowFn(fn, RowArgs(db.engine, args, outer.row))
  }

  /** Filtered and ordered, before OFFSET and LIMIT. */
  ghost function AllRows(q: SelectQuery, outer: Outer, db: Db): seq<Row> {
    Ordered(Matching(SourceRows(q.source, outer, db), outer, q.filter, db), q.orderBy, db)
  }

  ghost function SelectRows(q: SelectQuery, outer: Outer, db: Db): seq<Row> {
    Slice(AllRows(q, outer, db), q.limit, q.offset)
  }

  /** A cell of a guarded column: its value where the guard is TRUE, else NULL. */
  ghost function Cell(column: string, guard: Option<BoolExp>, row: Row, db: Db): Value {
    if Passes(guard, db, row) then Get(row, column) else Null
  }

  ghost function FieldJson(v: FieldValue, row: Row, db: Db, stringify: bool): Value
    decreases v, 0
  {
    match v
    case ColumnField(c, ty) => Render(db.engine, OutputRendering(ty, stringify), Get(row, c))
    case ColumnGuarded(c, ty, g) =>
      Render(db.engine, OutputRendering(ty, stringify), Cell(c, Some(g), row, db))
    case Typename(name) => Text(name)
    case Related(q, join) => SelectJson(q, Outer(join, row), db, stringify)
    case RemoteJoin => Null
    case ComputedScalar(fn, args, guard) =>
      if Passes(guard, db, row) then db.engine.scalarFn(fn, RowArgs(db.engine, args, row)) else Null
    case Aggregate(_) => Error
    case Nodes(_) => Error
  }

  ghost function RowJson(fields: seq<OutputField>, row: Row, db: Db, stringify: bool): Value
    decreases fields, 1
  {
    Obj(RowPairs(fields, row, db, stringify))
  }

  ghost function RowPairs(fields: seq<OutputField>, row: Row, db: Db, stringify: bool): (kvs: seq<(string, Value)>)
    ensures |kvs| == |fields|
    ensures forall i :: 0 <= i < |fields| ==>
      kvs[i] == (fields[i].alias, FieldJson(fields[i].value, row, db, stringify))
    decreases fields, 0
  {
    seq(|fields|, i requires 0 <= i < |fields| =>
      (fields[i].alias, FieldJson(fields[i].value, row, db, stringify)))
  }

  ghost function RowsJson(fields: seq<OutputField>, rows: seq<Row>, db: Db, stringify: bool): Value
    decreases fields, 3
  {
    Arr(RowJsons(fields, rows, db, stringify))
  }

  ghost function RowJsons(fields: seq<OutputField>, rows: seq<Row>, db: Db, stringify: bool): (vs: seq<Value>)
    ensures |vs| == |rows| && forall i :: 0 <= i < |rows| ==> vs[i] == RowJson(fields, rows[i], db, stringify)
    decreases fields, 2
  {
    seq(|rows|, i requires 0 <= i < |rows| => RowJson(fields, rows[i], db, stringify))
  }

  ghost function Cells(column: string, guard: Option<BoolExp>, rows: seq<Row>, db: Db): seq<Value> {
    seq(|rows|, i requires 0 <= i < |rows| => Cell(column, guard, rows[i], db))
  }

  ghost function AggregateJson(op: AggregateOp, rows: seq<Row>, db: Db): Value {
    match op
    case Count(distinct, columns) =>
      if columns == [] then Num(|rows|)
      else Num(CountTuples(distinct, seq(|rows|, i requires 0 <= i < |rows| =>
        seq(|columns|, k requires 0 <= k < |columns| => Get(rows[i], columns[k])))))
    case ColumnOp(aggFn, over) =>
      Obj(seq(|over|, i requires 0 <= i < |over| =>
        (over[i].alias, db.engine.aggregate(aggFn, Cells(over[i].column, over[i].guard, rows, db)))))
  }

  /** One entry of an aggregate select over `rows`: `nodes` shows the prefix
      that the permission limit admits, the aggregates range over all rows. */
  ghost function AggregateEntry(v: FieldValue, nodesLimit: Option<nat>, rows: seq<Row>, db: Db, stringify: bool): Value
    decreases v, 0
  {
    match v
    case Aggregate(aggs) =>
      Obj(seq(|aggs|, i requires 0 <= i < |aggs| => (aggs[i].alias, AggregateJson(aggs[i].op, rows, db))))
    case Nodes(fields) =>
      var shown := if nodesLimit.Some? && nodesLimit.value <= |rows| then rows[..nodesLimit.value] else rows;
      RowsJson(fields, shown, db, stringify)
    case Typename(name) => Text(name)
    case _ => Error
  }

  ghost function AggregateEntries(fields: seq<OutputField>, nodesLimit: Option<nat>, rows: seq<Row>, db: Db,
    stringify: bool): (kvs: seq<(string, Value)>)
    ensures |kvs| == |fields|
    ensures forall i :: 0 <= i < |fields| ==>
      kvs[i] == (fields[i].alias, AggregateEntry(fields[i].value, nodesLimit, rows, db, stringify))
    decreases fields, 1
  {
    seq(|fields|, i requires 0 <= i < |fields| =>
      (fields[i].alias, AggregateEntry(fields[i].value, nodesLimit, rows, db, stringify)))
  }

  ghost function SelectJson(q: SelectQuery, outer: Outer, db: Db, stringify: bool): Value
    decreases q, 0
  {
    var rows := SelectRows(q, outer, db);
    if IsAggregate(q.fields) then
      Obj(AggregateEntries(q.fields, q.nodesLimit, rows, db, stringify))
    else if q.single then
      if rows == [] then Null else RowJson(q.fields, rows[0], db, stringify)
    else
      RowsJson(q.fields, rows, db, stringify)
  }
}
