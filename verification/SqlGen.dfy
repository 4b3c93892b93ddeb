/** Compilation of the IR to SQL (crates/sqlgen). Every function takes the next
    free alias number and returns it advanced; the class `Ctx` of `Generator` is
    the generator itself, whose methods advance its counter in place. */
module SqlGen {
  import opened Values
  import opened Strings
  import opened Database
  import opened Ir
  import opened Sql

  datatype Out<+T> = Out(it: T, next: nat)

  function AliasName(n: nat): string {
    "_t" + Decimal(n)
  }

  /** The enclosing FROM alias of a correlated select and the join to it. */
  datatype OuterRef = NoRef | Ref(join: Join, alias: string)

  function JoinConds(join: Join, inner: string, outer: string): seq<Cond> {
    seq(|join|, i requires 0 <= i < |join| => CCmp(Eq, Col(inner, join[i].1), Col(outer, join[i].0)))
  }

  function RowArgSql(args: seq<RowArg>, alias: string): seq<Arg> {
    seq(|args|, i requires 0 <= i < |args| =>
      match args[i]
      case EnclosingRow => WholeRow(alias)
      case SessionJson(json) => JsonArg(json)
      case Given(v, ty) => ValueArg(v, ty))
  }

  function FnArgSql(args: seq<FnArg>): seq<Arg> {
    seq(|args|, i requires 0 <= i < |args| =>
      if args[i].name.Some? then NamedArg(args[i].name.value, args[i].value, args[i].pgType)
      else ValueArg(args[i].value, args[i].pgType))
  }

  function Lits(vs: seq<Value>, pgType: string): seq<Expr> {
    seq(|vs|, i requires 0 <= i < |vs| => Lit(vs[i], pgType))
  }

  function CompareSql(op: CompareOp, pgType: string, l: Expr, alias: string, root: string, n: nat): (out: Out<Cond>)
    ensures out.next >= n
  {
    match op
    case Bin(o, v) => Out(CCmp(o, l, Lit(v, pgType)), n)
    case BinAs(o, v, ty) => Out(CCmp(o, l, Lit(v, ty)), n)
    case In(vs) => Out(if vs == [] then CFalse else CIn(l, Lits(vs, pgType)), n)
    case Nin(vs) => Out(if vs == [] then CTrue else CNotIn(l, Lits(vs, pgType)), n)
    case IsNull(yes) => Out(if yes then CIsNull(l) else CIsNotNull(l), n)
    case Column(o, c, fromRoot) => Out(CCmp(o, l, Col(if fromRoot then root else alias, c)), n)
    case ColumnRel(o, t, join, c) =>
      var ra := AliasName(n);
      Out(CCmp(o, l, FirstOf(t, ra, c, JoinConds(join, ra, alias))), n + 1)
  }

  /** `(SELECT ra.column FROM table AS ra WHERE conds LIMIT 1)` */
  function FirstOf(t: Table, ra: string, column: string, conds: seq<Cond>): Expr {
    Sub(Select(As(Col(ra, column), column), FromTable(t, ra), conds, [], Some(1), None))
  }

  function BoolSql(e: BoolExp, alias: string, root: string, n: nat): (out: Out<Cond>)
    ensures out.next >= n
    decreases e, 0
  {
    match e
    case And(exps) =>
      var parts := BoolListSql(exps, alias, root, n);
      Out(if exps == [] then CTrue else CAnd(parts.it), parts.next)
    case Or(exps) =>
      var parts := BoolListSql(exps, alias, root, n);
      Out(if exps == [] then CFalse else COr(parts.it), parts.next)
    case Not(x) =>
      var inner := BoolSql(x, alias, root, n);
      Out(CNot(inner.it), inner.next)
    case Compare(c, ty, op) => CompareSql(op, ty, Col(alias, c), alias, root, n)
    case ComputedCompare(fn, args, ty, op) => CompareSql(op, ty, Call(fn, RowArgSql(args, alias)), alias, root, n)
    case Relationship(t, join, p) =>
      var ra := AliasName(n);
      var inner := BoolSql(p, ra, root, n + 1);
      Out(CExists(FromTable(t, ra), JoinConds(join, ra, alias) + [inner.it]), inner.next)
    case RowFunctionExists(fn, args, p) =>
      var ra := AliasName(n);
      var inner := BoolSql(p, ra, root, n + 1);
      Out(CExists(FromCall(fn, RowArgSql(args, alias), ra), [inner.it]), inner.next)
    case Exists(t, p) =>
      var ra := AliasName(n);
      var inner := BoolSql(p, ra, ra, n + 1);
      Out(CExists(FromTable(t, ra), [inner.it]), inner.next)
  }

  function BoolListSql(es: seq<BoolExp>, alias: string, root: string, n: nat): (out: Out<seq<Cond>>)
    ensures |out.it| == |es| && out.next >= n
    decreases es, 1
  {
    if es == [] then Out([], n)
    else
      var init := BoolListSql(es[..|es| - 1], alias, root, n);
      var last := BoolSql(es[|es| - 1], alias, root, init.next);
      Out(init.it + [last.it], last.next)
  }

  /** The conjunct of an optional row filter, rooted at its own alias. */
  function FilterSql(filter: Option<BoolExp>, alias: string, n: nat): (out: Out<seq<Cond>>)
    ensures out.next >= n
  {
    if filter.None? then Out([], n)
    else
      var c := BoolSql(filter.value, alias, alias, n);
      Out([c.it], c.next)
  }

  function OrderTargetSql(target: OrderTarget, alias: string, n: nat): (out: Out<Expr>)
    ensures out.next >= n
  {
    match target
    case ByColumn(c) => Out(Col(alias, c), n)
    case ByRelated(t, join, c, p) =>
      var ra := AliasName(n);
      var f := FilterSql(p, ra, n + 1);
      Out(FirstOf(t, ra, c, JoinConds(join, ra, alias) + f.it), f.next)
    case ByAggregate(t, join, aggFn, over, p) =>
      var ra := AliasName(n);
      var f := FilterSql(p, ra, n + 1);
      var agg := if over.None? then CountStar else AggCall(aggFn, Col(ra, over.value));
      Out(SubAgg(agg, FromTable(t, ra), JoinConds(join, ra, alias) + f.it), f.next)
  }

  function OrderSql(orderBy: seq<OrderBy>, alias: string, n: nat): (out: Out<seq<OrderItem>>)
    ensures |out.it| == |orderBy| && out.next >= n
  {
    if orderBy == [] then Out([], n)
    else
      var k := |orderBy| - 1;
      var init := OrderSql(orderBy[..k], alias, n);
      var last := OrderTargetSql(orderBy[k].target, alias, init.next);
      Out(init.it + [OrderItem(last.it, orderBy[k].spec)], last.next)
  }

  function SourceSql(source: FromSource, alias: string, outer: OuterRef): From {
    match source
    case Scan(t) => FromTable(t, alias)
    case Function(fn, args) => FromCall(fn, FnArgSql(args), alias)
    case RowFunction(fn, args) => FromCall(fn, RowArgSql(args, if outer.Ref? then outer.alias else ""), alias)
  }

  /** `from_where_order`: everything of a select but its target list. */
  function TailSql(q: SelectQuery, alias: string, outer: OuterRef, proj: Projection, n: nat): (out: Out<Select>)
    ensures out.next >= n
  {
    var joins := if outer.Ref? then JoinConds(outer.join, alias, outer.alias) else [];
    var f := FilterSql(q.filter, alias, n);
    var order := OrderSql(q.orderBy, alias, f.next);
    Out(Select(proj, SourceSql(q.source, alias, outer), joins + f.it, order.it, q.limit, q.offset), order.next)
  }

  function ColumnSql(alias: string, column: string, pgType: string, stringify: bool): Expr {
    var how := OutputRendering(pgType, stringify);
    if how.Some? then Rendered(how.value, Col(alias, column)) else Col(alias, column)
  }

  function FieldSql(v: FieldValue, alias: string, n: nat, stringify: bool): (out: Out<Expr>)
    ensures out.next >= n
    decreases v, 0
  {
    match v
    case ColumnField(c, ty) => Out(ColumnSql(alias, c, ty, stringify), n)
    case ColumnGuarded(c, ty, g) =>
      var cond := BoolSql(g, alias, alias, n);
      Out(Case(cond.it, ColumnSql(alias, c, ty, stringify)), cond.next)
    case Typename(name) => Out(TextLit(name), n)
    case Related(q, join) => SelectSql(q, Ref(join, alias), n, stringify)
    case RemoteJoin => Out(NullLit, n)
    case ComputedScalar(fn, args, guard) =>
      var call := Call(fn, RowArgSql(args, alias));
      if guard.None? then Out(call, n)
      else
        var cond := BoolSql(guard.value, alias, alias, n);
        Out(Case(cond.it, call), cond.next)
    case Aggregate(_) => Out(NullLit, n)   // the generator panics; excluded by WellFormedRow
    case Nodes(_) => Out(NullLit, n)
  }

  /** `row_json`: the key/value pairs of one row's object. */
  function RowSql(fields: seq<OutputField>, alias: string, n: nat, stringify: bool): (out: Out<seq<(string, Expr)>>)
    ensures |out.it| == |fields| && out.next >= n
    decreases fields, 1
  {
    if fields == [] then Out([], n)
    else
      var k := |fields| - 1;
      var init := RowSql(fields[..k], alias, n, stringify);
      var last := FieldSql(fields[k].value, alias, init.next, stringify);
      Out(init.it + [(fields[k].alias, last.it)], last.next)
  }

  function SelectSql(q: SelectQuery, outer: OuterRef, n: nat, stringify: bool): (out: Out<Expr>)
    ensures out.next >= n
    decreases q.fields, 4
  {
    if IsAggregate(q.fields) then AggregateSql(q, outer, n, stringify)
    else
      var alias := AliasName(n);
      var row := RowSql(q.fields, alias, n + 1, stringify);
      var tail := TailSql(q, alias, outer, As(BuildObject(row.it), "j"), row.next);
      if q.single then Out(Sub(tail.it.(limit := Some(1))), tail.next)
      else
        var elem := AliasName(tail.next);
        Out(SubAgg(JsonAgg(Col(elem, "j")), Derived(tail.it, elem), []), tail.next + 1)
  }

  function AggregateSql(q: SelectQuery, outer: OuterRef, n: nat, stringify: bool): (out: Out<Expr>)
    ensures out.next >= n
    decreases q.fields, 3
  {
    var inner := AliasName(n);
    var tail := TailSql(q, inner, outer, Star, n + 1);
    var oa := AliasName(tail.next);
    var pairs := EntriesSql(q.fields, q, outer, oa, tail.next + 1, stringify);
    Out(SubAgg(AggObject(pairs.it), Derived(tail.it, oa), []), pairs.next)
  }

  /** The separate select behind `nodes` under a permission limit. */
  function NodesQuery(q: SelectQuery, fields: seq<OutputField>, cap: nat): SelectQuery {
    q.(fields := fields, nodesLimit := None, single := false,
       limit := Some(if q.limit.Some? && q.limit.value <= cap then q.limit.value else cap))
  }

  function EntrySql(v: FieldValue, q: SelectQuery, outer: OuterRef, oa: string, n: nat, stringify: bool): (out: Out<Agg>)
    ensures out.next >= n
    decreases v, 0
  {
    match v
    case Aggregate(aggs) =>
      var pairs := AggFieldsSql(aggs, oa, n);
      Out(AggObject(pairs.it), pairs.next)
    case Nodes(fields) =>
      if q.nodesLimit.Some? then
        var sub := SelectSql(NodesQuery(q, fields, q.nodesLimit.value), outer, n, stringify);
        Out(Plain(sub.it), sub.next)
      else
        var row := RowSql(fields, oa, n, stringify);
        Out(JsonAgg(BuildObject(row.it)), row.next)
    case Typename(name) => Out(Plain(TextLit(name)), n)
    case _ => Out(Plain(NullLit), n)       // the generator panics; excluded by WellFormed
  }

  function EntriesSql(fields: seq<OutputField>, q: SelectQuery, outer: OuterRef, oa: string, n: nat, stringify: bool):
    (out: Out<seq<(string, Agg)>>)
    ensures |out.it| == |fields| && out.next >= n
    decreases fields, 1
  {
    if fields == [] then Out([], n)
    else
      var k := |fields| - 1;
      var init := EntriesSql(fields[..k], q, outer, oa, n, stringify);
      var last := EntrySql(fields[k].value, q, outer, oa, init.next, stringify);
      Out(init.it + [(fields[k].alias, last.it)], last.next)
  }

  function AggColumnsSql(aggFn: string, over: seq<AggregateColumn>, oa: string, n: nat): (out: Out<seq<(string, Agg)>>)
    ensures |out.it| == |over| && out.next >= n
  {
    if over == [] then Out([], n)
    else
      var k := |over| - 1;
      var init := AggColumnsSql(aggFn, over[..k], oa, n);
      var col := Col(oa, over[k].column);
      if over[k].guard.None? then Out(init.it + [(over[k].alias, AggCall(aggFn, col))], init.next)
      else
        var cond := BoolSql(over[k].guard.value, oa, oa, init.next);
        Out(init.it + [(over[k].alias, AggCall(aggFn, Case(cond.it, col)))], cond.next)
  }

  function AggOpSql(op: AggregateOp, oa: string, n: nat): (out: Out<Agg>)
    ensures out.next >= n
  {
    match op
    case Count(distinct, columns) =>
      Out(if columns == [] then CountStar
          else CountOf(distinct, seq(|columns|, i requires 0 <= i < |columns| => Col(oa, columns[i]))), n)
    case ColumnOp(aggFn, over) =>
      var pairs := AggColumnsSql(aggFn, over, oa, n);
      Out(AggObject(pairs.it), pairs.next)
  }

  function AggFieldsSql(aggs: seq<AggregateField>, oa: string, n: nat): (out: Out<seq<(string, Agg)>>)
    ensures |out.it| == |aggs| && out.next >= n
  {
    if aggs == [] then Out([], n)
    else
      var k := |aggs| - 1;
      var init := AggFieldsSql(aggs[..k], oa, n);
      var last := AggOpSql(aggs[k].op, oa, init.next);
      Out(init.it + [(aggs[k].alias, last.it)], last.next)
  }

  function RootSql(root: RootField, n: nat, stringify: bool): (out: Out<Expr>)
    ensures out.next >= n
  {
    match root
    case SelectRoot(_, q) => SelectSql(q, NoRef, n, stringify)
    case TypenameRoot(_, name) => Out(TextLit(name), n)
  }

  function RootsSql(roots: seq<RootField>, n: nat, stringify: bool): (out: Out<seq<(string, Expr)>>)
    ensures |out.it| == |roots| && out.next >= n
  {
    if roots == [] then Out([], n)
    else
      var k := |roots| - 1;
      var init := RootsSql(roots[..k], n, stringify);
      var last := RootSql(roots[k], init.next, stringify);
      Out(init.it + [(roots[k].alias, last.it)], last.next)
  }

  function OperationSql(roots: seq<RootField>, n: nat, stringify: bool): Out<Expr> {
    var pairs := RootsSql(roots, n, stringify);
    Out(BuildObject(pairs.it), pairs.next)
  }

  /** One actual aggregate call somewhere in the `aggregate` entries. */
  predicate CallsAggregate(aggs: seq<AggregateField>) {
    exists i :: 0 <= i < |aggs| && (aggs[i].op.Count? || aggs[i].op.over != [])
  }

  /** The target list contains an aggregate call, so the select yields one row. */
  predicate Aggregates(q: SelectQuery) {
    exists i :: 0 <= i < |q.fields| &&
      match q.fields[i].value
      case Aggregate(aggs) => CallsAggregate(aggs)
      case Nodes(_) => q.nodesLimit.None?
      case _ => false
  }

  /** What the generator demands of its input: it panics or emits unreadable
      SQL otherwise. The last conjunct of the aggregate case is the one the
      generator itself does not check; see `AggregateExact`. */
  predicate WellFormed(q: SelectQuery, correlated: bool)
    decreases q.fields, 1
  {
    (q.source.RowFunction? ==> correlated) &&
    if IsAggregate(q.fields) then
      WellFormedEntries(q) && Aggregates(q)
    else
      WellFormedRow(q.fields) && (q.single ==> q.limit.None?)
  }

  predicate WellFormedEntries(q: SelectQuery)
    decreases q.fields, 0
  {
    forall i :: 0 <= i < |q.fields| ==>
      match q.fields[i].value
      case Aggregate(_) => true
      case Typename(_) => true
      case Nodes(fields) => WellFormedRow(fields)
      case _ => false
  }

  predicate WellFormedRow(fields: seq<OutputField>)
    decreases fields, 0
  {
    forall i :: 0 <= i < |fields| ==>
      match fields[i].value
      case Related(q, _) => WellFormed(q, true)
      case Aggregate(_) => false
      case Nodes(_) => false
      case _ => true
  }

  predicate RowField(v: FieldValue) {
    match v
    case Related(q, _) => WellFormed(q, true)
    case Aggregate(_) => false
    case Nodes(_) => false
    case _ => true
  }

  predicate EntryField(v: FieldValue) {
    match v
    case Aggregate(_) => true
    case Typename(_) => true
    case Nodes(fields) => WellFormedRow(fields)
    case _ => false
  }

  predicate EntryCalls(v: FieldValue, nodesLimit: Option<nat>) {
    match v
    case Aggregate(aggs) => CallsAggregate(aggs)
    case Nodes(_) => nodesLimit.None?
    case _ => false
  }
}
