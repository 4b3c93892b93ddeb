/** The generator itself: one object whose alias counter is advanced in place by
    recursive methods. Each method produces exactly the SQL of the corresponding
    function of `SqlGen` and leaves the counter where that function says. */
module Generator {
  import opened Values
  import opened Ir
  import opened Sql
  import opened SqlGen

  class Ctx {
    var nextAlias: nat
    const stringify: bool

    constructor (stringifyNumerics: bool)
      ensures nextAlias == 0 && stringify == stringifyNumerics
    {
      nextAlias := 0;
      stringify := stringifyNumerics;
    }

    method Alias() returns (a: string)
      modifies this`nextAlias
      ensures a == AliasName(old(nextAlias)) && nextAlias == old(nextAlias) + 1
    {
      a := AliasName(nextAlias);
      nextAlias := nextAlias + 1;
    }

    method CompareExp(op: CompareOp, pgType: string, l: Expr, alias: string, root: string) returns (c: Cond)
      modifies this`nextAlias
      ensures Out(c, nextAlias) == CompareSql(op, pgType, l, alias, root, old(nextAlias))
    {
      match op
      case ColumnRel(o, t, join, column) =>
        var ra := Alias();
        c := CCmp(o, l, FirstOf(t, ra, column, JoinConds(join, ra, alias)));
      case _ =>
        c := CompareSql(op, pgType, l, alias, root, nextAlias).it;
    }

    method BoolExpr(e: BoolExp, alias: string, root: string) returns (c: Cond)
      modifies this`nextAlias
      ensures Out(c, nextAlias) == BoolSql(e, alias, root, old(nextAlias))
      decreases e, 0
    {
      match e
      case And(exps) =>
        var parts := BoolList(exps, alias, root);
        c := if exps == [] then CTrue else CAnd(parts);
      case Or(exps) =>
        var parts := BoolList(exps, alias, root);
        c := if exps == [] then CFalse else COr(parts);
      case Not(x) =>
        var inner := BoolExpr(x, alias, root);
        c := CNot(inner);
      case Compare(column, ty, op) =>
        c := CompareExp(op, ty, Col(alias, column), alias, root);
      case ComputedCompare(fn, args, ty, op) =>
        c := CompareExp(op, ty, Call(fn, RowArgSql(args, alias)), alias, root);
      case Relationship(t, join, p) =>
        var ra := Alias();
        var conds := JoinConds(join, ra, alias);
        var inner := BoolExpr(p, ra, root);
        conds := conds + [inner];
        c := CExists(FromTable(t, ra), conds);
      case RowFunctionExists(fn, args, p) =>
        var ra := Alias();
        var inner := BoolExpr(p, ra, root);
        c := CExists(FromCall(fn, RowArgSql(args, alias), ra), [inner]);
      case Exists(t, p) =>
        var ra := Alias();
        var inner := BoolExpr(p, ra, ra);
        c := CExists(FromTable(t, ra), [inner]);
    }

    method BoolList(es: seq<BoolExp>, alias: string, root: string) returns (parts: seq<Cond>)
      modifies this`nextAlias
      ensures Out(parts, nextAlias) == BoolListSql(es, alias, root, old(nextAlias))
      decreases es, 1
    {
      parts := [];
      for i := 0 to |es|
        invariant Out(parts, nextAlias) == BoolListSql(es[..i], alias, root, old(nextAlias))
      {
        var c := BoolExpr(es[i], alias, root);
        parts := parts + [c];
        assert es[..i + 1][..i] == es[..i];
      }
      assert es[..|es|] == es;
    }

    method OrderItems(orderBy: seq<OrderBy>, alias: string) returns (items: seq<OrderItem>)
      modifies this`nextAlias
      ensures Out(items, nextAlias) == OrderSql(orderBy, alias, old(nextAlias))
    {
      items := [];
      for i := 0 to |orderBy|
        invariant Out(items, nextAlias) == OrderSql(orderBy[..i], alias, old(nextAlias))
      {
        var e := OrderTargetExpr(orderBy[i].target, alias);
        items := items + [OrderItem(e, orderBy[i].spec)];
        assert orderBy[..i + 1][..i] == orderBy[..i];
      }
      assert orderBy[..|orderBy|] == orderBy;
    }

    method OrderTargetExpr(target: OrderTarget, alias: string) returns (e: Expr)
      modifies this`nextAlias
      ensures Out(e, nextAlias) == OrderTargetSql(target, alias, old(nextAlias))
    {
      match target
      case ByColumn(c) => e := Col(alias, c);
      case ByRelated(t, join, c, p) =>
        var ra := Alias();
        var conds := JoinConds(join, ra, alias);
        if p.Some? {
          var cond := BoolExpr(p.value, ra, ra);
          conds := conds + [cond];
        } else {
          assert conds + [] == conds;
        }
        e := FirstOf(t, ra, c, conds);
      case ByAggregate(t, join, aggFn, over, p) =>
        var ra := Alias();
        var conds := JoinConds(join, ra, alias);
        if p.Some? {
          var cond := BoolExpr(p.value, ra, ra);
          conds := conds + [cond];
        } else {
          assert conds + [] == conds;
        }
        e := SubAgg(if over.None? then CountStar else AggCall(aggFn, Col(ra, over.value)), FromTable(t, ra), conds);
    }

    /** `from_where_order`: the WHERE conjuncts grow one by one. */
    method FromWhereOrder(q: SelectQuery, alias: string, outer: OuterRef, proj: Projection) returns (s: Select)
      modifies this`nextAlias
      ensures Out(s, nextAlias) == TailSql(q, alias, outer, proj, old(nextAlias))
    {
      var conds := [];
      if outer.Ref? {
        conds := JoinConds(outer.join, alias, outer.alias);
      }
      ghost var joins := conds;
      if q.filter.Some? {
        var c := BoolExpr(q.filter.value, alias, alias);
        conds := conds + [c];
      } else {
        assert conds + [] == conds;
      }
      var items := OrderItems(q.orderBy, alias);
      s := Select(proj, SourceSql(q.source, alias, outer), conds, items, q.limit, q.offset);
    }

    method FieldExpr(v: FieldValue, alias: string) returns (e: Expr)
      modifies this`nextAlias
      ensures Out(e, nextAlias) == FieldSql(v, alias, old(nextAlias), stringify)
      decreases v, 0
    {
      match v
      case ColumnField(c, ty) => e := ColumnSql(alias, c, ty, stringify);
      case ColumnGuarded(c, ty, g) =>
        var cond := BoolExpr(g, alias, alias);
        e := Case(cond, ColumnSql(alias, c, ty, stringify));
      case Typename(name) => e := TextLit(name);
      case Related(q, join) => e := SelectExpr(q, Ref(join, alias));
      case ComputedScalar(fn, args, guard) =>
        e := Call(fn, RowArgSql(args, alias));
        if guard.Some? {
          var cond := BoolExpr(guard.value, alias, alias);
          e := Case(cond, e);
        }
      case _ => e := NullLit;
    }

    method RowObject(fields: seq<OutputField>, alias: string) returns (pairs: seq<(string, Expr)>)
      modifies this`nextAlias
      ensures Out(pairs, nextAlias) == RowSql(fields, alias, old(nextAlias), stringify)
      decreases fields, 1
    {
      pairs := [];
      for i := 0 to |fields|
        invariant Out(pairs, nextAlias) == RowSql(fields[..i], alias, old(nextAlias), stringify)
      {
        var e := FieldExpr(fields[i].value, alias);
        pairs := pairs + [(fields[i].alias, e)];
        assert fields[..i + 1][..i] == fields[..i];
      }
      assert fields[..|fields|] == fields;
    }

    method SelectExpr(q: SelectQuery, outer: OuterRef) returns (e: Expr)
      modifies this`nextAlias
      ensures Out(e, nextAlias) == SelectSql(q, outer, old(nextAlias), stringify)
      decreases q.fields, 4
    {
      if IsAggregate(q.fields) {
        e := AggregateExpr(q, outer);
      } else {
        e := PlainExpr(q, outer);
      }
    }

    method PlainExpr(q: SelectQuery, outer: OuterRef) returns (e: Expr)
      requires !IsAggregate(q.fields)
      modifies this`nextAlias
      ensures Out(e, nextAlias) == SelectSql(q, outer, old(nextAlias), stringify)
      decreases q.fields, 3
    {
      var alias := Alias();
      var tail := RowSelect(q, alias, outer);
      if q.single {
        e := Sub(tail.(limit := Some(1)));
      } else {
        var elem := Alias();
        e := SubAgg(JsonAgg(Col(elem, "j")), Derived(tail, elem), []);
      }
    }

    /** The rows of a plain select, each as one JSON object. */
    method RowSelect(q: SelectQuery, alias: string, outer: OuterRef) returns (tail: Select)
      modifies this`nextAlias
      ensures
        var row := RowSql(q.fields, alias, old(nextAlias), stringify);
        Out(tail, nextAlias) == TailSql(q, alias, outer, As(BuildObject(row.it), "j"), row.next)
      decreases q.fields, 2
    {
      var row := RowObject(q.fields, alias);
      tail := FromWhereOrder(q, alias, outer, As(BuildObject(row), "j"));
    }

    method AggregateExpr(q: SelectQuery, outer: OuterRef) returns (e: Expr)
      modifies this`nextAlias
      ensures Out(e, nextAlias) == AggregateSql(q, outer, old(nextAlias), stringify)
      decreases q.fields, 3
    {
      var inner := Alias();
      var tail := FromWhereOrder(q, inner, outer, Star);
      var oa := Alias();
      var pairs := Entries(q.fields, q, outer, oa);
      e := SubAgg(AggObject(pairs), Derived(tail, oa), []);
    }

    method Entries(fields: seq<OutputField>, q: SelectQuery, outer: OuterRef, oa: string) returns (pairs: seq<(string, Agg)>)
      modifies this`nextAlias
      ensures Out(pairs, nextAlias) == EntriesSql(fields, q, outer, oa, old(nextAlias), stringify)
      decreases fields, 1
    {
      pairs := [];
      for i := 0 to |fields|
        invariant Out(pairs, nextAlias) == EntriesSql(fields[..i], q, outer, oa, old(nextAlias), stringify)
      {
        var entry := EntryExpr(fields[i].value, q, outer, oa);
        pairs := pairs + [(fields[i].alias, entry)];
        assert fields[..i + 1][..i] == fields[..i];
      }
      assert fields[..|fields|] == fields;
    }

    method EntryExpr(v: FieldValue, q: SelectQuery, outer: OuterRef, oa: string) returns (a: Agg)
      modifies this`nextAlias
      ensures Out(a, nextAlias) == EntrySql(v, q, outer, oa, old(nextAlias), stringify)
      decreases v, 0
    {
      match v
      case Aggregate(aggs) =>
        var pairs := AggregateObject(aggs, oa);
        a := AggObject(pairs);
      case Nodes(fields) =>
        if q.nodesLimit.Some? {
          var sub := SelectExpr(NodesQuery(q, fields, q.nodesLimit.value), outer);
          a := Plain(sub);
        } else {
          var row := RowObject(fields, oa);
          a := JsonAgg(BuildObject(row));
        }
      case Typename(name) => a := Plain(TextLit(name));
      case _ => a := Plain(NullLit);
    }

    method AggregateObject(aggs: seq<AggregateField>, oa: string) returns (pairs: seq<(string, Agg)>)
      modifies this`nextAlias
      ensures Out(pairs, nextAlias) == AggFieldsSql(aggs, oa, old(nextAlias))
    {
      pairs := [];
      for i := 0 to |aggs|
        invariant Out(pairs, nextAlias) == AggFieldsSql(aggs[..i], oa, old(nextAlias))
      {
        var a: Agg;
        match aggs[i].op {
          case Count(_, _) => a := AggOpSql(aggs[i].op, oa, nextAlias).it;
          case ColumnOp(aggFn, over) =>
            var columns := AggregateColumns(aggFn, over, oa);
            a := AggObject(columns);
        }
        pairs := pairs + [(aggs[i].alias, a)];
        assert aggs[..i + 1][..i] == aggs[..i];
      }
      assert aggs[..|aggs|] == aggs;
    }

    /** `operation_to_sql`: one object over all root fields. */
    method Operation(roots: seq<RootField>) returns (e: Expr)
      modifies this`nextAlias
      ensures Out(e, nextAlias) == OperationSql(roots, old(nextAlias), stringify)
    {
      var pairs := [];
      for i := 0 to |roots|
        invariant Out(pairs, nextAlias) == RootsSql(roots[..i], old(nextAlias), stringify)
      {
        match roots[i] {
          case SelectRoot(alias, q) =>
            var sub := SelectExpr(q, NoRef);
            pairs := pairs + [(alias, sub)];
          case TypenameRoot(alias, name) =>
            pairs := pairs + [(alias, TextLit(name))];
        }
        assert roots[..i + 1][..i] == roots[..i];
      }
      assert roots[..|roots|] == roots;
      e := BuildObject(pairs);
    }

    method AggregateColumns(aggFn: string, over: seq<AggregateColumn>, oa: string) returns (pairs: seq<(string, Agg)>)
      modifies this`nextAlias
      ensures Out(pairs, nextAlias) == AggColumnsSql(aggFn, over, oa, old(nextAlias))
    {
      pairs := [];
      for i := 0 to |over|
        invariant Out(pairs, nextAlias) == AggColumnsSql(aggFn, over[..i], oa, old(nextAlias))
      {
        var e := Col(oa, over[i].column);
        if over[i].guard.Some? {
          var cond := BoolExpr(over[i].guard.value, oa, oa);
          e := Case(cond, e);
        }
        pairs := pairs + [(over[i].alias, AggCall(aggFn, e))];
        assert over[..i + 1][..i] == over[..i];
      }
      assert over[..|over|] == over;
    }
  }
}
