/** The SQL that sqlgen emits, as a syntax tree, with its environment-based
    evaluator: an alias is looked up in the innermost enclosing FROM item that
    declares it, so an inner alias can shadow an outer one. */
module Sql {
  import opened Values
  import opened Database

  datatype Arg = WholeRow(alias: string) | JsonArg(json: string) | ValueArg(v: Value, pgType: string)
               | NamedArg(name: string, v: Value, pgType: string)

  datatype Cond =
    | CTrue
    | CFalse
    | CAnd(conds: seq<Cond>)
    | COr(conds: seq<Cond>)
    | CNot(cond: Cond)
    | CCmp(op: BinOp, left: Expr, right: Expr)
    | CIn(e: Expr, items: seq<Expr>)
    | CNotIn(e: Expr, items: seq<Expr>)
    | CIsNull(e: Expr)
    | CIsNotNull(e: Expr)
    | CExists(from: From, where: seq<Cond>)

  datatype Expr =
    | Col(alias: string, column: string)
    | Lit(v: Value, pgType: string)
    | TextLit(s: string)
    | NullLit
    | Rendered(how: Rendering, e: Expr)
    | Call(fn: FnName, args: seq<Arg>)
    | Case(cond: Cond, e: Expr)                      // CASE WHEN cond THEN e ELSE NULL END
    | BuildObject(pairs: seq<(string, Expr)>)
    | Sub(q: Select)                                 // scalar subquery
    | SubAgg(agg: Agg, from: From, where: seq<Cond>) // scalar subquery over a target list with aggregates

  datatype Agg =
    | CountStar
    | CountOf(distinct: bool, es: seq<Expr>)
    | AggCall(aggFn: string, e: Expr)
    | JsonAgg(e: Expr)                               // coalesce(json_agg(e), '[]')
    | AggObject(pairs: seq<(string, Agg)>)
    | Plain(e: Expr)

  datatype From =
    | FromTable(table: Table, alias: string)
    | FromCall(fn: FnName, args: seq<Arg>, alias: string)
    | Derived(q: Select, alias: string)

  datatype Projection = Star | As(e: Expr, name: string)

  datatype OrderItem = OrderItem(e: Expr, spec: SortSpec)

  datatype Select = Select(
    proj: Projection,
    from: From,
    where: seq<Cond>,
    order: seq<OrderItem>,
    limit: Option<nat>,
    offset: Option<nat>)

  type Env = map<string, Row>

  function EvalArg(a: Arg, env: Env, eng: Engine): ArgVal {
    match a
    case WholeRow(alias) => RowVal(if alias in env then env[alias] else map[])
    case JsonArg(json) => ScalarVal(eng.cast(Text(json), "json"))
    case ValueArg(v, ty) => ScalarVal(LitValue(eng, v, ty))
    case NamedArg(name, v, ty) => NamedVal(name, LitValue(eng, v, ty))
  }

  function EvalArgs(args: seq<Arg>, env: Env, eng: Engine): seq<ArgVal> {
    seq(|args|, i requires 0 <= i < |args| => EvalArg(args[i], env, eng))
  }

  /** `v IN (i1, i2, ..)` is the chain of equalities. */
  function InList(eng: Engine, v: Value, items: seq<Value>): Tri {
    OrChain(seq(|items|, i requires 0 <= i < |items| => EvalBin(eng, Eq, v, items[i])))
  }

  function EvalCond(c: Cond, env: Env, db: Db): Tri
    decreases c, 0
  {
    match c
    case CTrue => True
    case CFalse => False
    case CAnd(cs) => AndChain(Truths(cs, env, db))
    case COr(cs) => OrChain(Truths(cs, env, db))
    case CNot(x) => Not3(EvalCond(x, env, db))
    case CCmp(op, l, r) => EvalBin(db.engine, op, EvalExpr(l, env, db), EvalExpr(r, env, db))
    case CIn(e, items) => InList(db.engine, EvalExpr(e, env, db), Evals(items, env, db))
    case CNotIn(e, items) => Not3(InList(db.engine, EvalExpr(e, env, db), Evals(items, env, db)))
    case CIsNull(e) => Truth(EvalExpr(e, env, db).Null?)
    case CIsNotNull(e) => Truth(!EvalExpr(e, env, db).Null?)
    case CExists(from, where) =>
      var rows := FromRows(from, env, db);
      Truth(Keep(rows, WhereMask(rows, from.alias, where, env, db)) != [])
  }

  function Truths(cs: seq<Cond>, env: Env, db: Db): (ts: seq<Tri>)
    ensures |ts| == |cs| && forall i :: 0 <= i < |cs| ==> ts[i] == EvalCond(cs[i], env, db)
    decreases cs, 1
  {
    seq(|cs|, i requires 0 <= i < |cs| => EvalCond(cs[i], env, db))
  }

  function Evals(es: seq<Expr>, env: Env, db: Db): (vs: seq<Value>)
    ensures |vs| == |es| && forall i :: 0 <= i < |es| ==> vs[i] == EvalExpr(es[i], env, db)
    decreases es, 1
  {
    seq(|es|, i requires 0 <= i < |es| => EvalExpr(es[i], env, db))
  }

  function WhereMask(rows: seq<Row>, alias: string, where: seq<Cond>, env: Env, db: Db): (mask: seq<bool>)
    ensures |mask| == |rows|
    ensures forall i :: 0 <= i < |rows| ==> mask[i] == WhereHolds(where, env[alias := rows[i]], db)
    decreases where, 3
  {
    seq(|rows|, i requires 0 <= i < |rows| => WhereHolds(where, env[alias := rows[i]], db))
  }

  predicate WhereHolds(where: seq<Cond>, env: Env, db: Db)
    decreases where, 2
  {
    AndChain(Truths(where, env, db)).True?
  }

  function EvalExpr(e: Expr, env: Env, db: Db): Value
    decreases e, 0
  {
    match e
    case Col(alias, column) => if alias in env then Get(env[alias], column) else Error
    case Lit(v, ty) => LitValue(db.engine, v, ty)
    case TextLit(s) => Text(s)
    case NullLit => Null
    case Rendered(how, x) => Render(db.engine, Some(how), EvalExpr(x, env, db))
    case Call(fn, args) => db.engine.scalarFn(fn, EvalArgs(args, env, db.engine))
    case Case(c, x) => if EvalCond(c, env, db).True? then EvalExpr(x, env, db) else Null
    case BuildObject(pairs) => Obj(EvalPairs(pairs, env, db))
    case Sub(q) =>
      var rows := Projected(q, env, db);
      if rows == [] then Null else if |rows| == 1 && q.proj.As? then Get(rows[0], q.proj.name) else Error
    case SubAgg(agg, from, where) =>
      var all := FromRows(from, env, db);
      var rows := Keep(all, WhereMask(all, from.alias, where, env, db));
      if HasCall(agg) then EvalAgg(agg, rows, from.alias, env, db)
      // Without an aggregate call the target list is evaluated once per row.
      else if |rows| == 0 then Null
      else if |rows| == 1 then EvalAgg(agg, rows, from.alias, env[from.alias := rows[0]], db)
      else Error
  }

  function EvalPairs(pairs: seq<(string, Expr)>, env: Env, db: Db): (kvs: seq<(string, Value)>)
    ensures |kvs| == |pairs| && forall i :: 0 <= i < |pairs| ==> kvs[i] == EvalPair(pairs[i], env, db)
    decreases pairs, 1
  {
    seq(|pairs|, i requires 0 <= i < |pairs| => EvalPair(pairs[i], env, db))
  }

  function EvalPair(p: (string, Expr), env: Env, db: Db): (string, Value)
    decreases p, 0
  {
    (p.0, EvalExpr(p.1, env, db))
  }

  /** The expression on each row in turn. */
  function PerRow(e: Expr, rows: seq<Row>, alias: string, env: Env, db: Db): (vs: seq<Value>)
    ensures |vs| == |rows| && forall i :: 0 <= i < |rows| ==> vs[i] == EvalExpr(e, env[alias := rows[i]], db)
    decreases e, 1
  {
    seq(|rows|, i requires 0 <= i < |rows| => EvalExpr(e, env[alias := rows[i]], db))
  }

  function TuplePerRow(es: seq<Expr>, rows: seq<Row>, alias: string, env: Env, db: Db): (ts: seq<seq<Value>>)
    ensures |ts| == |rows| && forall i :: 0 <= i < |rows| ==> ts[i] == Evals(es, env[alias := rows[i]], db)
    decreases es, 2
  {
    seq(|rows|, i requires 0 <= i < |rows| => Evals(es, env[alias := rows[i]], db))
  }

  predicate HasCall(a: Agg) {
    match a
    case AggObject(pairs) => exists i :: 0 <= i < |pairs| && HasCall(pairs[i].1)
    case Plain(_) => false
    case _ => true
  }

  function EvalAgg(a: Agg, rows: seq<Row>, alias: string, env: Env, db: Db): Value
    decreases a, 0
  {
    match a
    case CountStar => Num(|rows|)
    case CountOf(distinct, es) =>
      Num(CountTuples(distinct, TuplePerRow(es, rows, alias, env, db)))
    case AggCall(aggFn, e) => db.engine.aggregate(aggFn, PerRow(e, rows, alias, env, db))
    case JsonAgg(e) => Arr(PerRow(e, rows, alias, env, db))
    case AggObject(pairs) => Obj(EvalAggPairs(pairs, rows, alias, env, db))
    case Plain(e) => EvalExpr(e, env, db)
  }

  function EvalAggPairs(pairs: seq<(string, Agg)>, rows: seq<Row>, alias: string, env: Env, db: Db):
    (kvs: seq<(string, Value)>)
    ensures |kvs| == |pairs| && forall i :: 0 <= i < |pairs| ==> kvs[i] == EvalAggPair(pairs[i], rows, alias, env, db)
    decreases pairs, 1
  {
    seq(|pairs|, i requires 0 <= i < |pairs| => EvalAggPair(pairs[i], rows, alias, env, db))
  }

  function EvalAggPair(p: (string, Agg), rows: seq<Row>, alias: string, env: Env, db: Db): (string, Value)
    decreases p, 0
  {
    (p.0, EvalAgg(p.1, rows, alias, env, db))
  }

  function FromRows(from: From, env: Env, db: Db): seq<Row>
    decreases from, 0
  {
    match from
    case FromTable(t, _) => Rows(db, t)
    case FromCall(fn, args, _) => db.engine.rowFn(fn, EvalArgs(args, env, db.engine))
    case Derived(q, _) => Projected(q, env, db)
  }

  /** FROM, WHERE, ORDER BY, OFFSET and LIMIT: the source rows that survive. */
  function Surviving(q: Select, env: Env, db: Db): seq<Row>
    decreases q, 0
  {
    var all := FromRows(q.from, env, db);
    var kept := Keep(all, WhereMask(all, q.from.alias, q.where, env, db));
    Slice(SortRows(db.engine, ItemSpecs(q.order), kept, SortKeys(q.order, kept, q.from.alias, env, db)), q.limit, q.offset)
  }

  function ItemSpecs(order: seq<OrderItem>): (specs: seq<SortSpec>)
    ensures |specs| == |order|
  {
    seq(|order|, i requires 0 <= i < |order| => order[i].spec)
  }

  function ItemKeys(order: seq<OrderItem>, env: Env, db: Db): (keys: seq<Value>)
    ensures |keys| == |order| && forall i :: 0 <= i < |order| ==> keys[i] == ItemKey(order[i], env, db)
    decreases order, 1
  {
    seq(|order|, i requires 0 <= i < |order| => ItemKey(order[i], env, db))
  }

  function ItemKey(item: OrderItem, env: Env, db: Db): Value
    decreases item, 0
  {
    EvalExpr(item.e, env, db)
  }

  function SortKeys(order: seq<OrderItem>, rows: seq<Row>, alias: string, env: Env, db: Db): (keys: seq<seq<Value>>)
    ensures |keys| == |rows|
    ensures forall r :: 0 <= r < |rows| ==> |keys[r]| == |order| && keys[r] == ItemKeys(order, env[alias := rows[r]], db)
    decreases order, 2
  {
    seq(|rows|, r requires 0 <= r < |rows| => ItemKeys(order, env[alias := rows[r]], db))
  }

  function Projected(q: Select, env: Env, db: Db): seq<Row>
    decreases q, 1
  {
    var rows := Surviving(q, env, db);
    match q.proj
    case Star => rows
    case As(e, name) =>
      var vs := PerRow(e, rows, q.from.alias, env, db);
      seq(|rows|, i requires 0 <= i < |rows| => map[name := vs[i]])
  }
}
