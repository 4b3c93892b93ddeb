/** Compiling a select keeps its meaning: the SQL, evaluated on any database,
    gives the JSON of the direct nested-loop reading of the query. */
module SelectCorrect {
  import opened Values
  import opened Database
  import opened Ir
  import opened Sql
  import opened SqlGen
  import opened PredicateCorrect
  import opened Meaning

  // ----- FROM, WHERE, ORDER BY -----

  /** The reference names a bound alias that no later alias can shadow, and
      `outer` is what it denotes. */
  ghost predicate Denotes(ref: OuterRef, outer: Outer, env: Env, n: nat) {
    match ref
    case NoRef => outer.NoOuter?
    case Ref(join, alias) => alias in env && Older(alias, n) && outer == Outer(join, env[alias])
  }

  lemma FilterCorrect(filter: Option<BoolExp>, alias: string, n: nat, env: Env, db: Db)
    requires alias in env && Older(alias, n)
    ensures WhereHolds(FilterSql(filter, alias, n).it, env, db) <==> Passes(filter, db, env[alias])
  {
    if filter.None? {
      WhereMeaning([], env, db);
    } else {
      var c := BoolSql(filter.value, alias, alias, n).it;
      BoolCorrect(filter.value, alias, alias, n, env, db);
      WhereSingle(c, env, db);
    }
  }

  function RefConds(ref: OuterRef, alias: string): seq<Cond> {
    if ref.Ref? then JoinConds(ref.join, alias, ref.alias) else []
  }

  lemma RowSelected(ref: OuterRef, outer: Outer, filter: Option<BoolExp>, alias: string, n: nat, row: Row, env: Env, db: Db)
    requires ref.NoRef? ==> outer.NoOuter?
    requires ref.Ref? ==> ref.alias in env && ref.alias != alias && outer == Outer(ref.join, env[ref.alias])
    requires Older(alias, n)
    ensures WhereHolds(RefConds(ref, alias) + FilterSql(filter, alias, n).it, env[alias := row], db) <==>
            Selected(outer, filter, db, row)
  {
    var scope := env[alias := row];
    var f := FilterSql(filter, alias, n).it;
    FilterCorrect(filter, alias, n, scope, db);
    if ref.Ref? {
      WhereJoined(ref.join, alias, ref.alias, f, scope, db);
    } else {
      assert RefConds(ref, alias) + f == f;
    }
  }

  /** The surviving rows of a scan are the matching rows. */
  lemma MatchingCorrect(rows: seq<Row>, ref: OuterRef, outer: Outer, filter: Option<BoolExp>, alias: string, n: nat,
    env: Env, db: Db)
    requires ref.NoRef? ==> outer.NoOuter?
    requires ref.Ref? ==> ref.alias in env && ref.alias != alias && outer == Outer(ref.join, env[ref.alias])
    requires Older(alias, n)
    ensures Keep(rows, WhereMask(rows, alias, RefConds(ref, alias) + FilterSql(filter, alias, n).it, env, db)) ==
            Matching(rows, outer, filter, db)
  {
    var where := RefConds(ref, alias) + FilterSql(filter, alias, n).it;
    var mask := WhereMask(rows, alias, where, env, db);
    forall i | 0 <= i < |rows| ensures mask[i] == Selected(outer, filter, db, rows[i]) {
      RowSelected(ref, outer, filter, alias, n, rows[i], env, db);
    }
    assert mask == seq(|rows|, i requires 0 <= i < |rows| => Selected(outer, filter, db, rows[i]));
  }

  lemma OrderTargetCorrect(target: OrderTarget, alias: string, n: nat, env: Env, db: Db)
    requires alias in env && Older(alias, n)
    ensures EvalExpr(OrderTargetSql(target, alias, n).it, env, db) == OrderKey(target, env[alias], db)
  {
    match target
    case ByColumn(c) =>
    case ByRelated(t, join, c, p) =>
      var ra := AliasName(n);
      var ref := Ref(join, alias);
      NumberedAliasIsOlder(n);
      MatchingCorrect(Rows(db, t), ref, Outer(join, env[alias]), p, ra, n + 1, env, db);
      FirstOfMeaning(t, ra, c, RefConds(ref, ra) + FilterSql(p, ra, n + 1).it, env, db,
        Matching(Rows(db, t), Outer(join, env[alias]), p, db));
    case ByAggregate(t, join, aggFn, over, p) =>
      ByAggregateCorrect(target, alias, n, env, db);
  }

  lemma ByAggregateCorrect(target: OrderTarget, alias: string, n: nat, env: Env, db: Db)
    requires target.ByAggregate?
    requires alias in env && Older(alias, n)
    ensures EvalExpr(OrderTargetSql(target, alias, n).it, env, db) == OrderKey(target, env[alias], db)
  {
    var ra := AliasName(n);
    var ref := Ref(target.join, alias);
    var all := Rows(db, target.table);
    NumberedAliasIsOlder(n);
    MatchingCorrect(all, ref, Outer(target.join, env[alias]), target.filter, ra, n + 1, env, db);
    var rows := Matching(all, Outer(target.join, env[alias]), target.filter, db);
    if target.over.Some? {
      var col := Col(ra, target.over.value);
      assert PerRow(col, rows, ra, env, db) == ColumnOf(rows, target.over.value);
    }
  }

  lemma {:induction false} OrderItemCorrect(orderBy: seq<OrderBy>, i: nat, alias: string, n: nat, env: Env, db: Db)
    requires i < |orderBy|
    requires alias in env && Older(alias, n)
    ensures
      var item := OrderSql(orderBy, alias, n).it[i];
      item.spec == orderBy[i].spec && ItemKey(item, env, db) == OrderKey(orderBy[i].target, env[alias], db)
  {
    var k := |orderBy| - 1;
    var init := OrderSql(orderBy[..k], alias, n);
    if i < k {
      assert OrderSql(orderBy, alias, n).it[i] == init.it[i] && orderBy[..k][i] == orderBy[i];
      OrderItemCorrect(orderBy[..k], i, alias, n, env, db);
    } else {
      OrderTargetCorrect(orderBy[k].target, alias, init.next, env, db);
    }
  }

  lemma OrderCorrect(orderBy: seq<OrderBy>, alias: string, n: nat, env: Env, db: Db)
    requires alias in env && Older(alias, n)
    ensures ItemKeys(OrderSql(orderBy, alias, n).it, env, db) == OrderKeys(orderBy, env[alias], db)
    ensures ItemSpecs(OrderSql(orderBy, alias, n).it) == Specs(orderBy)
  {
    forall i | 0 <= i < |orderBy|
      ensures ItemKeys(OrderSql(orderBy, alias, n).it, env, db)[i] == OrderKeys(orderBy, env[alias], db)[i]
      ensures ItemSpecs(OrderSql(orderBy, alias, n).it)[i] == Specs(orderBy)[i]
    {
      OrderItemCorrect(orderBy, i, alias, n, env, db);
    }
  }

  lemma OrderedCorrect(rows: seq<Row>, orderBy: seq<OrderBy>, alias: string, n: nat, env: Env, db: Db)
    requires Older(alias, n)
    ensures
      var items := OrderSql(orderBy, alias, n).it;
      SortRows(db.engine, ItemSpecs(items), rows, SortKeys(items, rows, alias, env, db)) == Ordered(rows, orderBy, db)
  {
    var items := OrderSql(orderBy, alias, n).it;
    var keys := SortKeys(items, rows, alias, env, db);
    forall i | 0 <= i < |rows| ensures keys[i] == OrderKeys(orderBy, rows[i], db) {
      OrderCorrect(orderBy, alias, n, env[alias := rows[i]], db);
    }
    if rows == [] {
      OrderCorrect(orderBy, alias, n, env[alias := map[]], db);
    } else {
      OrderCorrect(orderBy, alias, n, env[alias := rows[0]], db);
    }
    assert keys == seq(|rows|, i requires 0 <= i < |rows| => OrderKeys(orderBy, rows[i], db));
  }

  lemma SourceCorrect(source: FromSource, alias: string, ref: OuterRef, outer: Outer, n: nat, env: Env, db: Db)
    requires Denotes(ref, outer, env, n)
    requires source.RowFunction? ==> ref.Ref?
    ensures FromRows(SourceSql(source, alias, ref), env, db) == SourceRows(source, outer, db)
  {
    match source
    case Scan(t) =>
    case Function(fn, args) =>
      assert EvalArgs(FnArgSql(args), env, db.engine) == FnArgs(db.engine, args);
    case RowFunction(fn, args) =>
      RowArgsMeaning(args, ref.alias, env, db.engine);
  }

  /** `from_where_order` keeps, orders and slices the rows the query means. */
  lemma TailCorrect(q: SelectQuery, ref: OuterRef, outer: Outer, proj: Projection, a: nat, n: nat, env: Env, db: Db)
    requires Denotes(ref, outer, env, a) && a < n
    requires q.source.RowFunction? ==> ref.Ref?
    ensures Surviving(TailSql(q, AliasName(a), ref, proj, n).it, env, db) == SelectRows(q, outer, db)
  {
    var alias := AliasName(a);
    NumberedAliasIsOlder(a);
    var f := FilterSql(q.filter, alias, n);
    var from := SourceSql(q.source, alias, ref);
    assert from.alias == alias;
    SourceCorrect(q.source, alias, ref, outer, a, env, db);
    var all := SourceRows(q.source, outer, db);
    MatchingCorrect(all, ref, outer, q.filter, alias, n, env, db);
    OrderedCorrect(Matching(all, outer, q.filter, db), q.orderBy, alias, f.next, env, db);
  }

  // ----- rows and selects -----

  /** `FROM (..) AS alias` without WHERE keeps every row. */
  lemma NoWhere(rows: seq<Row>, alias: string, env: Env, db: Db)
    ensures Keep(rows, WhereMask(rows, alias, [], env, db)) == rows
  {
    forall i | 0 <= i < |rows| ensures WhereHolds([], env[alias := rows[i]], db) {
      WhereMeaning([], env[alias := rows[i]], db);
    }
    KeepAll(rows, WhereMask(rows, alias, [], env, db));
  }

  lemma GuardedCorrect(guard: BoolExp, e: Expr, alias: string, n: nat, env: Env, db: Db)
    requires alias in env && Older(alias, n)
    ensures EvalExpr(Case(BoolSql(guard, alias, alias, n).it, e), env, db) ==
            if Passes(Some(guard), db, env[alias]) then EvalExpr(e, env, db) else Null
  {
    BoolCorrect(guard, alias, alias, n, env, db);
  }

  lemma ColumnCorrect(alias: string, column: string, pgType: string, env: Env, db: Db, stringify: bool)
    requires alias in env
    ensures EvalExpr(ColumnSql(alias, column, pgType, stringify), env, db) ==
            Render(db.engine, OutputRendering(pgType, stringify), Get(env[alias], column))
  {
    assert EvalExpr(Col(alias, column), env, db) == Get(env[alias], column);
  }

  lemma {:induction false} FieldCorrect(v: FieldValue, alias: string, n: nat, env: Env, db: Db, stringify: bool)
    requires RowField(v) && alias in env && Older(alias, n)
    ensures EvalExpr(FieldSql(v, alias, n, stringify).it, env, db) == FieldJson(v, env[alias], db, stringify)
    decreases v, 0
  {
    match v
    case ColumnField(c, ty) => ColumnCorrect(alias, c, ty, env, db, stringify);
    case ColumnGuarded(c, ty, g) =>
      ColumnCorrect(alias, c, ty, env, db, stringify);
      GuardedCorrect(g, ColumnSql(alias, c, ty, stringify), alias, n, env, db);
    case Typename(name) =>
    case RemoteJoin =>
    case Related(q, join) =>
      SelectCorrect(q, Ref(join, alias), Outer(join, env[alias]), n, env, db, stringify);
    case ComputedScalar(fn, args, guard) =>
      RowArgsMeaning(args, alias, env, db.engine);
      if guard.Some? {
        GuardedCorrect(guard.value, Call(fn, RowArgSql(args, alias)), alias, n, env, db);
      }
  }

  lemma {:induction false} RowFieldCorrect(fields: seq<OutputField>, i: nat, alias: string, n: nat, env: Env, db: Db,
    stringify: bool)
    requires i < |fields| && WellFormedRow(fields) && alias in env && Older(alias, n)
    ensures
      var p := RowSql(fields, alias, n, stringify).it[i];
      p.0 == fields[i].alias && EvalExpr(p.1, env, db) == FieldJson(fields[i].value, env[alias], db, stringify)
    decreases fields, 1
  {
    var k := |fields| - 1;
    var init := RowSql(fields[..k], alias, n, stringify);
    if i < k {
      assert RowSql(fields, alias, n, stringify).it[i] == init.it[i] && fields[..k][i] == fields[i];
      assert WellFormedRow(fields[..k]);
      RowFieldCorrect(fields[..k], i, alias, n, env, db, stringify);
    } else {
      assert RowField(fields[k].value);
      FieldCorrect(fields[k].value, alias, init.next, env, db, stringify);
    }
  }

  lemma {:induction false} RowCorrect(fields: seq<OutputField>, alias: string, n: nat, env: Env, db: Db, stringify: bool)
    requires WellFormedRow(fields) && alias in env && Older(alias, n)
    ensures EvalExpr(BuildObject(RowSql(fields, alias, n, stringify).it), env, db) ==
            RowJson(fields, env[alias], db, stringify)
    decreases fields, 2
  {
    var pairs := RowSql(fields, alias, n, stringify).it;
    var kvs := EvalPairs(pairs, env, db);
    forall i | 0 <= i < |fields| ensures kvs[i] == RowPairs(fields, env[alias], db, stringify)[i] {
      RowFieldCorrect(fields, i, alias, n, env, db, stringify);
    }
    assert kvs == RowPairs(fields, env[alias], db, stringify);
  }

  lemma {:induction false} RowsCorrect(fields: seq<OutputField>, rows: seq<Row>, alias: string, n: nat, env: Env, db: Db,
    stringify: bool)
    requires WellFormedRow(fields) && Older(alias, n)
    ensures PerRow(BuildObject(RowSql(fields, alias, n, stringify).it), rows, alias, env, db) ==
            RowJsons(fields, rows, db, stringify)
    decreases fields, 3
  {
    forall i | 0 <= i < |rows|
      ensures PerRow(BuildObject(RowSql(fields, alias, n, stringify).it), rows, alias, env, db)[i] ==
              RowJsons(fields, rows, db, stringify)[i]
    {
      RowCorrect(fields, alias, n, env[alias := rows[i]], db, stringify);
    }
  }

  /** Main result: every well-formed select, at any nesting depth. */
  lemma {:induction false} SelectCorrect(q: SelectQuery, ref: OuterRef, outer: Outer, n: nat, env: Env, db: Db, stringify: bool)
    requires Denotes(ref, outer, env, n) && WellFormed(q, ref.Ref?)
    ensures EvalExpr(SelectSql(q, ref, n, stringify).it, env, db) == SelectJson(q, outer, db, stringify)
    decreases q.fields, 6
  {
    if IsAggregate(q.fields) {
      AggregateCorrect(q, ref, outer, n, env, db, stringify);
    } else if q.single {
      SingleCorrect(q, ref, outer, n, env, db, stringify);
    } else {
      ListCorrect(q, ref, outer, n, env, db, stringify);
    }
  }

  /** The parts of a compiled non-aggregate select. */
  lemma PlainShape(q: SelectQuery, ref: OuterRef, n: nat, stringify: bool)
    requires !IsAggregate(q.fields)
    ensures
      var row := RowSql(q.fields, AliasName(n), n + 1, stringify);
      var tail := TailSql(q, AliasName(n), ref, As(BuildObject(row.it), "j"), row.next);
      var elem := AliasName(tail.next);
      SelectSql(q, ref, n, stringify).it ==
        if q.single then Sub(tail.it.(limit := Some(1)))
        else SubAgg(JsonAgg(Col(elem, "j")), Derived(tail.it, elem), [])
  {
  }

  lemma PlainJson(q: SelectQuery, outer: Outer, db: Db, stringify: bool, rows: seq<Row>)
    requires !IsAggregate(q.fields) && rows == SelectRows(q, outer, db)
    ensures SelectJson(q, outer, db, stringify) ==
      if !q.single then Arr(RowJsons(q.fields, rows, db, stringify))
      else if rows == [] then Null else RowJson(q.fields, rows[0], db, stringify)
  {
  }

  /** `TailCorrect` for a tail and rows given by name. */
  lemma TailRows(q: SelectQuery, ref: OuterRef, outer: Outer, proj: Projection, a: nat, n: nat, env: Env, db: Db,
    tail: Select, rows: seq<Row>)
    requires Denotes(ref, outer, env, a) && a < n && (q.source.RowFunction? ==> ref.Ref?)
    requires tail == TailSql(q, AliasName(a), ref, proj, n).it && rows == SelectRows(q, outer, db)
    ensures Surviving(tail, env, db) == rows && tail.from.alias == AliasName(a) && tail.proj == proj
  {
    TailCorrect(q, ref, outer, proj, a, n, env, db);
  }

  lemma {:induction false} PlainRows(fields: seq<OutputField>, n: nat, env: Env, db: Db, stringify: bool, rows: seq<Row>)
    requires WellFormedRow(fields)
    ensures PerRow(BuildObject(RowSql(fields, AliasName(n), n + 1, stringify).it), rows, AliasName(n), env, db) ==
            RowJsons(fields, rows, db, stringify)
    decreases fields, 4
  {
    NumberedAliasIsOlder(n);
    RowsCorrect(fields, rows, AliasName(n), n + 1, env, db, stringify);
  }

  /** LIMIT 1 on top of an unlimited query keeps its first row. */
  lemma FirstRow(q: SelectQuery, outer: Outer, db: Db)
    requires q.limit.None?
    ensures
      var one := SelectRows(q.(limit := Some(1)), outer, db);
      var all := SelectRows(q, outer, db);
      |one| <= 1 && (one == [] <==> all == []) && (one != [] ==> one[0] == all[0])
  {
    assert AllRows(q.(limit := Some(1)), outer, db) == AllRows(q, outer, db);
    SlicePrefix(AllRows(q, outer, db), None, 1, q.offset);
  }

  /** An object relationship or `_by_pk` root: the first row or null. */
  lemma {:induction false} SingleCorrect(q: SelectQuery, ref: OuterRef, outer: Outer, n: nat, env: Env, db: Db, stringify: bool)
    requires Denotes(ref, outer, env, n) && WellFormed(q, ref.Ref?) && !IsAggregate(q.fields) && q.single
    ensures EvalExpr(SelectSql(q, ref, n, stringify).it, env, db) == SelectJson(q, outer, db, stringify)
    decreases q.fields, 5
  {
    var one := q.(limit := Some(1));
    var row := RowSql(q.fields, AliasName(n), n + 1, stringify);
    var proj := As(BuildObject(row.it), "j");
    var sql := TailSql(one, AliasName(n), ref, proj, row.next).it;
    var rows := SelectRows(one, outer, db);
    assert sql == TailSql(q, AliasName(n), ref, proj, row.next).it.(limit := Some(1));
    PlainShape(q, ref, n, stringify);
    TailRows(one, ref, outer, proj, n, row.next, env, db, sql, rows);
    PlainRows(q.fields, n, env, db, stringify, rows);
    FirstRow(q, outer, db);
    SubValue(sql, rows, proj.e, AliasName(n), env, db);
    PlainJson(q, outer, db, stringify, SelectRows(q, outer, db));
  }

  lemma SubValue(sql: Select, rows: seq<Row>, e: Expr, alias: string, env: Env, db: Db)
    requires rows == Surviving(sql, env, db) && |rows| <= 1
    requires sql.proj == As(e, "j") && sql.from.alias == alias
    ensures EvalExpr(Sub(sql), env, db) == if rows == [] then Null else PerRow(e, rows, alias, env, db)[0]
  {
    var out := Projected(sql, env, db);
    assert |out| == |rows|;
    if rows != [] {
      assert out[0] == map["j" := PerRow(e, rows, alias, env, db)[0]];
    }
  }

  lemma {:induction false} ListCorrect(q: SelectQuery, ref: OuterRef, outer: Outer, n: nat, env: Env, db: Db, stringify: bool)
    requires Denotes(ref, outer, env, n) && WellFormed(q, ref.Ref?) && !IsAggregate(q.fields) && !q.single
    ensures EvalExpr(SelectSql(q, ref, n, stringify).it, env, db) == SelectJson(q, outer, db, stringify)
    decreases q.fields, 5
  {
    var row := RowSql(q.fields, AliasName(n), n + 1, stringify);
    var tail := TailSql(q, AliasName(n), ref, As(BuildObject(row.it), "j"), row.next);
    var rows := SelectRows(q, outer, db);
    PlainShape(q, ref, n, stringify);
    TailRows(q, ref, outer, As(BuildObject(row.it), "j"), n, row.next, env, db, tail.it, rows);
    PlainRows(q.fields, n, env, db, stringify, rows);
    JsonAggValue(tail.it, rows, BuildObject(row.it), AliasName(tail.next), env, db);
    PlainJson(q, outer, db, stringify, rows);
  }

  /** `SELECT coalesce(json_agg(e.j), '[]') FROM (SELECT x AS j ..) AS e` */
  lemma JsonAggValue(sql: Select, rows: seq<Row>, e: Expr, elem: string, env: Env, db: Db)
    requires rows == Surviving(sql, env, db) && sql.proj == As(e, "j")
    ensures EvalExpr(SubAgg(JsonAgg(Col(elem, "j")), Derived(sql, elem), []), env, db) ==
            Arr(PerRow(e, rows, sql.from.alias, env, db))
  {
    var out := Projected(sql, env, db);
    NoWhere(out, elem, env, db);
    var vs := PerRow(e, rows, sql.from.alias, env, db);
    var got := PerRow(Col(elem, "j"), out, elem, env, db);
    forall i | 0 <= i < |rows| ensures got[i] == vs[i] {
      assert out[i] == map["j" := vs[i]];
    }
    assert got == vs;
  }

  // ----- aggregate selects -----

  lemma {:induction false} AggColumnCorrect(aggFn: string, over: seq<AggregateColumn>, i: nat, oa: string, n: nat,
    rows: seq<Row>, env: Env, db: Db)
    requires i < |over| && Older(oa, n)
    ensures
      var p := AggColumnsSql(aggFn, over, oa, n).it[i];
      p.0 == over[i].alias && EvalAgg(p.1, rows, oa, env, db) ==
        db.engine.aggregate(aggFn, Cells(over[i].column, over[i].guard, rows, db))
  {
    var k := |over| - 1;
    var init := AggColumnsSql(aggFn, over[..k], oa, n);
    if i < k {
      assert AggColumnsSql(aggFn, over, oa, n).it[i] == init.it[i] && over[..k][i] == over[i];
      AggColumnCorrect(aggFn, over[..k], i, oa, n, rows, env, db);
    } else {
      CellsCorrect(over[k], oa, init.next, rows, env, db);
    }
  }

  /** A guarded aggregate ranges over the cells a plain select would show. */
  lemma CellsCorrect(c: AggregateColumn, oa: string, n: nat, rows: seq<Row>, env: Env, db: Db)
    requires Older(oa, n)
    ensures
      var col := Col(oa, c.column);
      var e := if c.guard.None? then col else Case(BoolSql(c.guard.value, oa, oa, n).it, col);
      PerRow(e, rows, oa, env, db) == Cells(c.column, c.guard, rows, db)
  {
    var col := Col(oa, c.column);
    var e := if c.guard.None? then col else Case(BoolSql(c.guard.value, oa, oa, n).it, col);
    forall i | 0 <= i < |rows| ensures PerRow(e, rows, oa, env, db)[i] == Cell(c.column, c.guard, rows[i], db) {
      var scope := env[oa := rows[i]];
      assert EvalExpr(col, scope, db) == Get(rows[i], c.column);
      if c.guard.Some? {
        GuardedCorrect(c.guard.value, col, oa, n, scope, db);
      }
    }
  }

  lemma AggOpCorrect(op: AggregateOp, oa: string, n: nat, rows: seq<Row>, env: Env, db: Db)
    requires Older(oa, n)
    ensures EvalAgg(AggOpSql(op, oa, n).it, rows, oa, env, db) == AggregateJson(op, rows, db)
  {
    match op
    case Count(distinct, columns) =>
      if columns != [] {
        CountCorrect(distinct, columns, oa, rows, env, db);
      }
    case ColumnOp(aggFn, over) =>
      var pairs := AggColumnsSql(aggFn, over, oa, n).it;
      var kvs := EvalAggPairs(pairs, rows, oa, env, db);
      forall i | 0 <= i < |over|
        ensures kvs[i] == (over[i].alias, db.engine.aggregate(aggFn, Cells(over[i].column, over[i].guard, rows, db)))
      {
        AggColumnCorrect(aggFn, over, i, oa, n, rows, env, db);
      }
      assert AggregateJson(op, rows, db) == Obj(kvs);
  }

  lemma CountCorrect(distinct: bool, columns: seq<string>, oa: string, rows: seq<Row>, env: Env, db: Db)
    requires columns != []
    ensures
      var es := seq(|columns|, i requires 0 <= i < |columns| => Col(oa, columns[i]));
      EvalAgg(CountOf(distinct, es), rows, oa, env, db) == AggregateJson(Count(distinct, columns), rows, db)
  {
    var es := seq(|columns|, i requires 0 <= i < |columns| => Col(oa, columns[i]));
    var got := TuplePerRow(es, rows, oa, env, db);
    var want := seq(|rows|, i requires 0 <= i < |rows| =>
      seq(|columns|, k requires 0 <= k < |columns| => Get(rows[i], columns[k])));
    forall i | 0 <= i < |rows| ensures got[i] == want[i] {
      assert forall k :: 0 <= k < |columns| ==> got[i][k] == Get(rows[i], columns[k]);
    }
    assert got == want;
  }

  lemma {:induction false} AggFieldCorrect(aggs: seq<AggregateField>, i: nat, oa: string, n: nat, rows: seq<Row>, env: Env, db: Db)
    requires i < |aggs| && Older(oa, n)
    ensures
      var p := AggFieldsSql(aggs, oa, n).it[i];
      p.0 == aggs[i].alias && EvalAgg(p.1, rows, oa, env, db) == AggregateJson(aggs[i].op, rows, db)
  {
    var k := |aggs| - 1;
    var init := AggFieldsSql(aggs[..k], oa, n);
    if i < k {
      assert AggFieldsSql(aggs, oa, n).it[i] == init.it[i] && aggs[..k][i] == aggs[i];
      AggFieldCorrect(aggs[..k], i, oa, n, rows, env, db);
    } else {
      AggOpCorrect(aggs[k].op, oa, init.next, rows, env, db);
    }
  }

  lemma {:induction false} EntryCorrect(v: FieldValue, q: SelectQuery, ref: OuterRef, outer: Outer, oa: string, n: nat,
    rows: seq<Row>, env: Env, db: Db, stringify: bool)
    requires EntryField(v) && Denotes(ref, outer, env, n) && Older(oa, n)
    requires q.source.RowFunction? ==> ref.Ref?
    requires rows == SelectRows(q, outer, db)
    ensures EvalAgg(EntrySql(v, q, ref, oa, n, stringify).it, rows, oa, env, db) ==
            AggregateEntry(v, q.nodesLimit, rows, db, stringify)
    decreases v, 1
  {
    match v
    case Typename(name) =>
    case Aggregate(aggs) => AggregateEntryCorrect(aggs, q.nodesLimit, oa, n, rows, env, db, stringify);
    case Nodes(fields) => NodesEntryCorrect(v, q, ref, outer, oa, n, rows, env, db, stringify);
  }

  lemma {:induction false} NodesEntryCorrect(v: FieldValue, q: SelectQuery, ref: OuterRef, outer: Outer, oa: string, n: nat,
    rows: seq<Row>, env: Env, db: Db, stringify: bool)
    requires v.Nodes? && WellFormedRow(v.fields) && Denotes(ref, outer, env, n) && Older(oa, n)
    requires q.source.RowFunction? ==> ref.Ref?
    requires rows == SelectRows(q, outer, db)
    ensures EvalAgg(EntrySql(v, q, ref, oa, n, stringify).it, rows, oa, env, db) ==
            AggregateEntry(v, q.nodesLimit, rows, db, stringify)
    decreases v, 0
  {
    if q.nodesLimit.Some? {
      var sub := CappedShape(v, q, ref, oa, n, stringify);
      CappedNodesCorrect(v.fields, q, ref, outer, oa, n, rows, env, db, stringify);
      PlainAgg(sub, rows, oa, env, db);
    } else {
      OwnNodesCorrect(v.fields, oa, n, rows, env, db, stringify);
    }
  }

  lemma {:induction false} CappedShape(v: FieldValue, q: SelectQuery, ref: OuterRef, oa: string, n: nat, stringify: bool) returns (sub: Expr)
    requires v.Nodes? && q.nodesLimit.Some?
    ensures sub == SelectSql(NodesQuery(q, v.fields, q.nodesLimit.value), ref, n, stringify).it
    ensures EntrySql(v, q, ref, oa, n, stringify).it == Plain(sub)
  {
    sub := SelectSql(NodesQuery(q, v.fields, q.nodesLimit.value), ref, n, stringify).it;
  }

  lemma {:induction false} PlainAgg(e: Expr, rows: seq<Row>, oa: string, env: Env, db: Db)
    ensures EvalAgg(Plain(e), rows, oa, env, db) == EvalExpr(e, env, db)
  {
  }

  lemma AggregateEntryCorrect(aggs: seq<AggregateField>, nodesLimit: Option<nat>, oa: string, n: nat, rows: seq<Row>,
    env: Env, db: Db, stringify: bool)
    requires Older(oa, n)
    ensures EvalAgg(AggObject(AggFieldsSql(aggs, oa, n).it), rows, oa, env, db) ==
            AggregateEntry(Aggregate(aggs), nodesLimit, rows, db, stringify)
  {
    var kvs := EvalAggPairs(AggFieldsSql(aggs, oa, n).it, rows, oa, env, db);
    var want := seq(|aggs|, i requires 0 <= i < |aggs| => (aggs[i].alias, AggregateJson(aggs[i].op, rows, db)));
    forall i | 0 <= i < |aggs| ensures kvs[i] == want[i] {
      AggFieldCorrect(aggs, i, oa, n, rows, env, db);
    }
    assert kvs == want;
  }

  lemma {:induction false} OwnNodesCorrect(fields: seq<OutputField>, oa: string, n: nat, rows: seq<Row>, env: Env, db: Db,
    stringify: bool)
    requires WellFormedRow(fields) && Older(oa, n)
    ensures EvalAgg(JsonAgg(BuildObject(RowSql(fields, oa, n, stringify).it)), rows, oa, env, db) ==
            RowsJson(fields, rows, db, stringify)
    decreases fields, 7
  {
    RowsCorrect(fields, rows, oa, n, env, db, stringify);
  }

  /** Under a permission limit the separate `nodes` select shows exactly a
      prefix of the rows being aggregated. */
  lemma {:induction false} CappedNodesCorrect(fields: seq<OutputField>, q: SelectQuery, ref: OuterRef, outer: Outer, oa: string,
    n: nat, rows: seq<Row>, env: Env, db: Db, stringify: bool)
    requires WellFormedRow(fields) && Denotes(ref, outer, env, n) && q.nodesLimit.Some?
    requires q.source.RowFunction? ==> ref.Ref?
    requires rows == SelectRows(q, outer, db)
    ensures
      var cap := q.nodesLimit.value;
      EvalExpr(SelectSql(NodesQuery(q, fields, cap), ref, n, stringify).it, env, db) ==
      RowsJson(fields, if cap <= |rows| then rows[..cap] else rows, db, stringify)
    decreases fields, 7
  {
    var cap := q.nodesLimit.value;
    var nq := NodesQuery(q, fields, cap);
    assert !IsAggregate(fields);
    SelectCorrect(nq, ref, outer, n, env, db, stringify);
    assert AllRows(nq, outer, db) == AllRows(q, outer, db);
    SlicePrefix(AllRows(q, outer, db), q.limit, cap, q.offset);
  }

  /** Each entry is compiled by itself, at some later counter value. */
  lemma {:induction false} EntryAt(fields: seq<OutputField>, i: nat, q: SelectQuery, ref: OuterRef, oa: string, n: nat, stringify: bool)
    returns (m: nat)
    requires i < |fields|
    ensures m >= n
    ensures EntriesSql(fields, q, ref, oa, n, stringify).it[i] ==
            (fields[i].alias, EntrySql(fields[i].value, q, ref, oa, m, stringify).it)
  {
    var k := |fields| - 1;
    var init := EntriesSql(fields[..k], q, ref, oa, n, stringify);
    if i < k {
      m := EntryAt(fields[..k], i, q, ref, oa, n, stringify);
    } else {
      m := init.next;
    }
  }

  /** The target list of an aggregate select, over the rows the query means. */
  lemma {:induction false} TargetCorrect(q: SelectQuery, ref: OuterRef, outer: Outer, oa: string, n: nat, env: Env, db: Db,
    stringify: bool)
    requires WellFormedEntries(q) && IsAggregate(q.fields)
    requires Denotes(ref, outer, env, n) && Older(oa, n)
    requires q.source.RowFunction? ==> ref.Ref?
    ensures EvalAgg(AggObject(EntriesSql(q.fields, q, ref, oa, n, stringify).it), SelectRows(q, outer, db), oa, env, db) ==
            SelectJson(q, outer, db, stringify)
    decreases q.fields, 2, 0
  {
    var rows := SelectRows(q, outer, db);
    var pairs := EntriesSql(q.fields, q, ref, oa, n, stringify).it;
    var kvs := EvalAggPairs(pairs, rows, oa, env, db);
    var want := AggregateEntries(q.fields, q.nodesLimit, rows, db, stringify);
    forall i | 0 <= i < |q.fields| ensures kvs[i] == want[i] {
      var m := EntryAt(q.fields, i, q, ref, oa, n, stringify);
      assert EntryField(q.fields[i].value);
      EntryCorrect(q.fields[i].value, q, ref, outer, oa, m, rows, env, db, stringify);
    }
    assert kvs == want;
  }

  // ----- does the target list aggregate at all? -----

  lemma {:induction false} ColumnsCall(aggFn: string, over: seq<AggregateColumn>, oa: string, n: nat)
    ensures HasCall(AggObject(AggColumnsSql(aggFn, over, oa, n).it)) <==> over != []
  {
    var pairs := AggColumnsSql(aggFn, over, oa, n).it;
    if over != [] {
      assert pairs[|over| - 1].1.AggCall?;
    }
  }

  lemma {:induction false} FieldsCall(aggs: seq<AggregateField>, i: nat, oa: string, n: nat)
    requires i < |aggs|
    ensures HasCall(AggFieldsSql(aggs, oa, n).it[i].1) <==> (aggs[i].op.Count? || aggs[i].op.over != [])
  {
    var k := |aggs| - 1;
    var init := AggFieldsSql(aggs[..k], oa, n);
    if i < k {
      assert AggFieldsSql(aggs, oa, n).it[i] == init.it[i] && aggs[..k][i] == aggs[i];
      FieldsCall(aggs[..k], i, oa, n);
    } else if aggs[k].op.ColumnOp? {
      ColumnsCall(aggs[k].op.aggFn, aggs[k].op.over, oa, init.next);
    }
  }

  lemma EntryCall(v: FieldValue, q: SelectQuery, ref: OuterRef, oa: string, n: nat, stringify: bool)
    ensures HasCall(EntrySql(v, q, ref, oa, n, stringify).it) <==> EntryCalls(v, q.nodesLimit)
  {
    if v.Aggregate? {
      var pairs := AggFieldsSql(v.aggs, oa, n).it;
      forall i | 0 <= i < |v.aggs|
        ensures HasCall(pairs[i].1) <==> (v.aggs[i].op.Count? || v.aggs[i].op.over != [])
      {
        FieldsCall(v.aggs, i, oa, n);
      }
    }
  }

  lemma TargetCall(q: SelectQuery, ref: OuterRef, oa: string, n: nat, stringify: bool)
    ensures HasCall(AggObject(EntriesSql(q.fields, q, ref, oa, n, stringify).it)) <==> Aggregates(q)
  {
    var pairs := EntriesSql(q.fields, q, ref, oa, n, stringify).it;
    forall i | 0 <= i < |q.fields|
      ensures HasCall(pairs[i].1) <==> EntryCalls(q.fields[i].value, q.nodesLimit)
    {
      var m := EntryAt(q.fields, i, q, ref, oa, n, stringify);
      EntryCall(q.fields[i].value, q, ref, oa, m, stringify);
    }
  }

  /** A scalar subquery over `n` rows: a target list with an aggregate call gives
      one row; without one it gives `n` rows, of which only one is a value. */
  function OneRowValue(aggregates: bool, n: nat, json: Value): Value {
    if aggregates || n == 1 then json else if n == 0 then Null else Error
  }

  lemma SubAggValue(agg: Agg, sql: Select, rows: seq<Row>, oa: string, env: Env, db: Db, calls: bool, json: Value)
    requires rows == Surviving(sql, env, db) && sql.proj.Star?
    requires HasCall(agg) <==> calls
    requires EvalAgg(agg, rows, oa, env, db) == json
    requires |rows| == 1 ==> EvalAgg(agg, rows, oa, env[oa := rows[0]], db) == json
    ensures EvalExpr(SubAgg(agg, Derived(sql, oa), []), env, db) == OneRowValue(calls, |rows|, json)
  {
    assert FromRows(Derived(sql, oa), env, db) == rows;
    NoWhere(rows, oa, env, db);
  }

  /** The parts of an aggregate select. */
  lemma {:induction false} AggregateShape(q: SelectQuery, ref: OuterRef, n: nat, stringify: bool, e: Expr)
    returns (sql: Select, m: nat, entries: seq<(string, Agg)>)
    requires e == AggregateSql(q, ref, n, stringify).it
    ensures n <= m && sql == TailSql(q, AliasName(n), ref, Star, n + 1).it
    ensures entries == EntriesSql(q.fields, q, ref, AliasName(m), m + 1, stringify).it
    ensures e == SubAgg(AggObject(entries), Derived(sql, AliasName(m)), [])
  {
    var tail := TailSql(q, AliasName(n), ref, Star, n + 1);
    sql, m := tail.it, tail.next;
    entries := EntriesSql(q.fields, q, ref, AliasName(m), m + 1, stringify).it;
  }

  lemma DenotesLater(ref: OuterRef, outer: Outer, env: Env, n: nat, m: nat)
    requires Denotes(ref, outer, env, n) && n <= m
    ensures Denotes(ref, outer, env, m)
  {
  }

  lemma DenotesInside(ref: OuterRef, outer: Outer, env: Env, m: nat, row: Row)
    requires Denotes(ref, outer, env, m)
    ensures Denotes(ref, outer, env[AliasName(m) := row], m + 1)
  {
  }

  lemma {:induction false} TargetInScope(q: SelectQuery, ref: OuterRef, outer: Outer, m: nat, env: Env, db: Db,
    stringify: bool, agg: Agg, rows: seq<Row>, json: Value)
    requires WellFormedEntries(q) && IsAggregate(q.fields) && (q.source.RowFunction? ==> ref.Ref?)
    requires Denotes(ref, outer, env, m)
    requires rows == SelectRows(q, outer, db) && json == SelectJson(q, outer, db, stringify)
    requires agg == AggObject(EntriesSql(q.fields, q, ref, AliasName(m), m + 1, stringify).it)
    ensures EvalAgg(agg, rows, AliasName(m), env, db) == json
    ensures |rows| == 1 ==> EvalAgg(agg, rows, AliasName(m), env[AliasName(m) := rows[0]], db) == json
    decreases q.fields, 3, 0
  {
    NumberedAliasIsOlder(m);
    DenotesLater(ref, outer, env, m, m + 1);
    TargetCorrect(q, ref, outer, AliasName(m), m + 1, env, db, stringify);
    if |rows| == 1 {
      DenotesInside(ref, outer, env, m, rows[0]);
      TargetCorrect(q, ref, outer, AliasName(m), m + 1, env[AliasName(m) := rows[0]], db, stringify);
    }
  }

  lemma {:induction false} AggregateOver(q: SelectQuery, ref: OuterRef, outer: Outer, sql: Select, m: nat, env: Env, db: Db,
    stringify: bool, rows: seq<Row>, json: Value, e: Expr)
    requires WellFormedEntries(q) && IsAggregate(q.fields) && (q.source.RowFunction? ==> ref.Ref?)
    requires Denotes(ref, outer, env, m)
    requires rows == SelectRows(q, outer, db) && json == SelectJson(q, outer, db, stringify)
    requires Surviving(sql, env, db) == rows && sql.proj.Star?
    requires e == SubAgg(AggObject(EntriesSql(q.fields, q, ref, AliasName(m), m + 1, stringify).it),
                         Derived(sql, AliasName(m)), [])
    ensures EvalExpr(e, env, db) == OneRowValue(Aggregates(q), |rows|, json)
    decreases q.fields, 3, 1
  {
    var agg := AggObject(EntriesSql(q.fields, q, ref, AliasName(m), m + 1, stringify).it);
    TargetInScope(q, ref, outer, m, env, db, stringify, agg, rows, json);
    TargetCall(q, ref, AliasName(m), m + 1, stringify);
    SubAggValue(agg, sql, rows, AliasName(m), env, db, Aggregates(q), json);
  }

  lemma {:induction false} AggregateFromTail(q: SelectQuery, ref: OuterRef, outer: Outer, n: nat, env: Env, db: Db, stringify: bool,
    sql: Select, m: nat, rows: seq<Row>, json: Value, e: Expr)
    requires Denotes(ref, outer, env, n) && n <= m
    requires WellFormedEntries(q) && IsAggregate(q.fields) && (q.source.RowFunction? ==> ref.Ref?)
    requires sql == TailSql(q, AliasName(n), ref, Star, n + 1).it
    requires rows == SelectRows(q, outer, db) && json == SelectJson(q, outer, db, stringify)
    requires e == SubAgg(AggObject(EntriesSql(q.fields, q, ref, AliasName(m), m + 1, stringify).it),
                         Derived(sql, AliasName(m)), [])
    ensures EvalExpr(e, env, db) == OneRowValue(Aggregates(q), |rows|, json)
    decreases q.fields, 3, 2
  {
    TailRows(q, ref, outer, Star, n, n + 1, env, db, sql, rows);
    DenotesLater(ref, outer, env, n, m);
    AggregateOver(q, ref, outer, sql, m, env, db, stringify, rows, json, e);
  }

  lemma {:induction false} AggregateValueOf(q: SelectQuery, ref: OuterRef, outer: Outer, n: nat, env: Env, db: Db, stringify: bool,
    e: Expr, rows: seq<Row>, json: Value)
    requires Denotes(ref, outer, env, n)
    requires WellFormedEntries(q) && IsAggregate(q.fields) && (q.source.RowFunction? ==> ref.Ref?)
    requires e == AggregateSql(q, ref, n, stringify).it && rows == SelectRows(q, outer, db) && json == SelectJson(q, outer, db, stringify)
    ensures EvalExpr(e, env, db) == OneRowValue(Aggregates(q), |rows|, json)
    decreases q.fields, 3, 3
  {
    var sql, m, entries := AggregateShape(q, ref, n, stringify, e);
    AggregateFromTail(q, ref, outer, n, env, db, stringify, sql, m, rows, json, e);
  }

  /** What an aggregate select returns in every case: without an aggregate call
      in its target list the statement yields one row per source row, so it is
      right only when there is exactly one. */
  lemma {:induction false} AggregateValue(q: SelectQuery, ref: OuterRef, outer: Outer, n: nat, env: Env, db: Db, stringify: bool)
    requires Denotes(ref, outer, env, n)
    requires WellFormedEntries(q) && IsAggregate(q.fields) && (q.source.RowFunction? ==> ref.Ref?)
    ensures EvalExpr(SelectSql(q, ref, n, stringify).it, env, db) ==
            OneRowValue(Aggregates(q), |SelectRows(q, outer, db)|, SelectJson(q, outer, db, stringify))
    decreases q.fields, 3, 4
  {
    AggregateValueOf(q, ref, outer, n, env, db, stringify, AggregateSql(q, ref, n, stringify).it, SelectRows(q, outer, db),
      SelectJson(q, outer, db, stringify));
  }

  lemma {:induction false} AggregateCorrect(q: SelectQuery, ref: OuterRef, outer: Outer, n: nat, env: Env, db: Db, stringify: bool)
    requires Denotes(ref, outer, env, n) && WellFormed(q, ref.Ref?) && IsAggregate(q.fields)
    ensures EvalExpr(SelectSql(q, ref, n, stringify).it, env, db) == SelectJson(q, outer, db, stringify)
    decreases q.fields, 4
  {
    AggregateValue(q, ref, outer, n, env, db, stringify);
  }

  /** The exact condition under which an aggregate select is compiled correctly. */
  lemma AggregateExact(q: SelectQuery, ref: OuterRef, outer: Outer, n: nat, env: Env, db: Db, stringify: bool)
    requires Denotes(ref, outer, env, n)
    requires WellFormedEntries(q) && IsAggregate(q.fields) && (q.source.RowFunction? ==> ref.Ref?)
    ensures EvalExpr(SelectSql(q, ref, n, stringify).it, env, db) == SelectJson(q, outer, db, stringify) <==>
            Aggregates(q) || |SelectRows(q, outer, db)| == 1
  {
    AggregateValue(q, ref, outer, n, env, db, stringify);
  }

  // ----- whole operations -----

  /** The `data` object of a query: one entry per root, in selection order. */
  ghost function OperationJson(roots: seq<RootField>, db: Db, stringify: bool): Value {
    Obj(seq(|roots|, i requires 0 <= i < |roots| => (roots[i].alias, RootJson(roots[i], db, stringify))))
  }

  ghost function RootJson(root: RootField, db: Db, stringify: bool): Value {
    match root
    case SelectRoot(_, q) => SelectJson(q, NoOuter, db, stringify)
    case TypenameRoot(_, name) => Text(name)
  }

  lemma {:induction false} RootAt(roots: seq<RootField>, i: nat, n: nat, stringify: bool) returns (m: nat)
    requires i < |roots|
    ensures m >= n
    ensures RootsSql(roots, n, stringify).it[i] == (roots[i].alias, RootSql(roots[i], m, stringify).it)
  {
    var k := |roots| - 1;
    if i < k {
      m := RootAt(roots[..k], i, n, stringify);
    } else {
      m := RootsSql(roots[..k], n, stringify).next;
    }
  }

  lemma RootCorrect(root: RootField, n: nat, db: Db, stringify: bool)
    requires root.SelectRoot? ==> WellFormed(root.query, false)
    ensures EvalExpr(RootSql(root, n, stringify).it, map[], db) == RootJson(root, db, stringify)
  {
    if root.SelectRoot? {
      SelectCorrect(root.query, NoRef, NoOuter, n, map[], db, stringify);
    }
  }

  /** One statement computes the whole response. */
  lemma OperationCorrect(roots: seq<RootField>, db: Db, stringify: bool)
    requires forall i :: 0 <= i < |roots| && roots[i].SelectRoot? ==> WellFormed(roots[i].query, false)
    ensures EvalExpr(OperationSql(roots, 0, stringify).it, map[], db) == OperationJson(roots, db, stringify)
  {
    var pairs := RootsSql(roots, 0, stringify).it;
    var kvs := EvalPairs(pairs, map[], db);
    forall i | 0 <= i < |roots| ensures kvs[i] == (roots[i].alias, RootJson(roots[i], db, stringify)) {
      var m := RootAt(roots, i, 0, stringify);
      RootCorrect(roots[i], m, db, stringify);
    }
    assert OperationJson(roots, db, stringify) == Obj(kvs);
  }
}
