/** Compiling a predicate keeps its three-valued truth value: the SQL condition,
    evaluated in any environment that binds the aliases in scope, agrees with
    the direct meaning of the predicate on the bound rows. */
module PredicateCorrect {
  import opened Values
  import opened Strings
  import opened Database
  import opened Ir
  import opened Sql
  import opened SqlGen
  import Meaning

  // ----- fresh aliases -----

  lemma {:induction false} DecimalInjective(m: nat, n: nat)
    requires Decimal(m) == Decimal(n)
    ensures m == n
  {
    var dm, dn := Decimal(m), Decimal(n);
    assert dm[|dm| - 1] == "0123456789"[m % 10];
    assert dn[|dn| - 1] == "0123456789"[n % 10];
    if m >= 10 && n >= 10 {
      assert Decimal(m / 10) == dm[..|dm| - 1] == dn[..|dn| - 1] == Decimal(n / 10);
      DecimalInjective(m / 10, n / 10);
    }
  }

  /** `alias` can never be handed out again once the counter stands at `n`. */
  ghost predicate Older(alias: string, n: nat) {
    forall k: nat :: k >= n ==> alias != AliasName(k)
  }

  lemma NumberedAliasIsOlder(n: nat)
    ensures Older(AliasName(n), n + 1)
  {
    forall k: nat | k >= n + 1 ensures AliasName(n) != AliasName(k) {
      if AliasName(n) == AliasName(k) {
        assert AliasName(n)[2..] == AliasName(k)[2..];
        DecimalInjective(n, k);
      }
    }
  }

  // ----- EXISTS and WHERE -----

  lemma {:induction false} KeepNonEmpty<T>(rows: seq<T>, mask: seq<bool>)
    requires |rows| == |mask|
    ensures Keep(rows, mask) != [] <==> exists i :: 0 <= i < |mask| && mask[i]
  {
    if rows != [] {
      var n := |rows| - 1;
      KeepNonEmpty(rows[..n], mask[..n]);
      assert forall i :: 0 <= i < n ==> mask[..n][i] == mask[i];
    }
  }

  lemma WhereMeaning(where: seq<Cond>, env: Env, db: Db)
    ensures WhereHolds(where, env, db) <==> forall i :: 0 <= i < |where| ==> EvalCond(where[i], env, db).True?
  {
    AndChainMeaning(Truths(where, env, db));
  }

  lemma WhereSplit(a: seq<Cond>, b: seq<Cond>, env: Env, db: Db)
    ensures WhereHolds(a + b, env, db) <==> WhereHolds(a, env, db) && WhereHolds(b, env, db)
  {
    WhereMeaning(a, env, db);
    WhereMeaning(b, env, db);
    WhereMeaning(a + b, env, db);
    assert forall i :: 0 <= i < |a| ==> (a + b)[i] == a[i];
    assert forall i :: 0 <= i < |b| ==> (a + b)[|a| + i] == b[i];
  }

  lemma JoinCondTrue(remote: string, local: string, ra: string, outer: string, env: Env, db: Db)
    requires ra in env && outer in env
    ensures EvalCond(CCmp(Eq, Col(ra, remote), Col(outer, local)), env, db).True? <==>
            !Get(env[outer], local).Null? && Get(env[outer], local) == Get(env[ra], remote)
  {
    assert EvalExpr(Col(ra, remote), env, db) == Get(env[ra], remote);
    assert EvalExpr(Col(outer, local), env, db) == Get(env[outer], local);
  }

  /** `WHERE ra.remote = outer.local AND .. AND extra`. */
  lemma WhereJoined(join: Join, ra: string, outer: string, extra: seq<Cond>, env: Env, db: Db)
    requires ra in env && outer in env
    ensures WhereHolds(JoinConds(join, ra, outer) + extra, env, db) <==>
            Meaning.Joined(join, env[outer], env[ra]) && WhereHolds(extra, env, db)
  {
    var js := JoinConds(join, ra, outer);
    WhereSplit(js, extra, env, db);
    WhereMeaning(js, env, db);
    forall i | 0 <= i < |js|
      ensures EvalCond(js[i], env, db).True? <==>
              !Get(env[outer], join[i].0).Null? && Get(env[outer], join[i].0) == Get(env[ra], join[i].1)
    {
      JoinCondTrue(join[i].1, join[i].0, ra, outer, env, db);
    }
  }

  lemma WhereSingle(c: Cond, env: Env, db: Db)
    ensures WhereHolds([c], env, db) <==> EvalCond(c, env, db).True?
  {
    WhereMeaning([c], env, db);
  }

  ghost predicate SomeWhere(where: seq<Cond>, alias: string, rows: seq<Row>, env: Env, db: Db) {
    exists i :: 0 <= i < |rows| && WhereHolds(where, env[alias := rows[i]], db)
  }

  /** EXISTS asks for one source row on which the WHERE holds. */
  lemma ExistsMeaning(from: From, where: seq<Cond>, env: Env, db: Db)
    ensures EvalCond(CExists(from, where), env, db) ==
            Truth(SomeWhere(where, from.alias, FromRows(from, env, db), env, db))
  {
    var rows := FromRows(from, env, db);
    KeepNonEmpty(rows, WhereMask(rows, from.alias, where, env, db));
  }

  // ----- comparisons -----

  lemma InListMeaning(eng: Engine, v: Value, items: seq<Value>)
    ensures InList(eng, v, items) == Meaning.Member(v, items)
  {
    var ts := seq(|items|, i requires 0 <= i < |items| => EvalBin(eng, Eq, v, items[i]));
    OrChainMeaning(ts);
    assert forall i :: 0 <= i < |items| ==> ts[i] == EvalBin(eng, Eq, v, items[i]);
    if v in items && !v.Null? {
      var i :| 0 <= i < |items| && items[i] == v;
      assert ts[i].True?;
    }
    if Null in items && !v.Null? {
      var i :| 0 <= i < |items| && items[i] == Null;
      assert ts[i].Unknown?;
    }
    if items != [] && v.Null? {
      assert ts[0].Unknown?;
    }
  }

  lemma LitsMeaning(vs: seq<Value>, pgType: string, env: Env, db: Db)
    ensures
      Evals(Lits(vs, pgType), env, db) == Meaning.LitValues(db.engine, vs, pgType)
  {
  }

  lemma RowArgsMeaning(args: seq<RowArg>, alias: string, env: Env, eng: Engine)
    requires alias in env
    ensures EvalArgs(RowArgSql(args, alias), env, eng) == Meaning.RowArgs(eng, args, env[alias])
  {
  }

  /** An unordered scalar subselect with LIMIT 1 reads the first surviving row. */
  lemma FirstOfMeaning(t: Table, ra: string, column: string, conds: seq<Cond>, env: Env, db: Db, kept: seq<Row>)
    requires
      var rows := Rows(db, t);
      kept == Keep(rows, WhereMask(rows, ra, conds, env, db))
    ensures EvalExpr(FirstOf(t, ra, column, conds), env, db) == Meaning.FirstColumn(kept, column)
  {
    var q := Select(As(Col(ra, column), column), FromTable(t, ra), conds, [], Some(1), None);
    UnorderedSurviving(q, env, db);
    var rows := Projected(q, env, db);
    if kept != [] {
      assert Surviving(q, env, db) == [kept[0]];
      assert rows == [map[column := EvalExpr(Col(ra, column), env[ra := kept[0]], db)]];
    }
  }

  lemma UnorderedSurviving(q: Select, env: Env, db: Db)
    requires q.order == []
    ensures
      var all := FromRows(q.from, env, db);
      Surviving(q, env, db) == Slice(Keep(all, WhereMask(all, q.from.alias, q.where, env, db)), q.limit, q.offset)
  {
    var all := FromRows(q.from, env, db);
    var kept := Keep(all, WhereMask(all, q.from.alias, q.where, env, db));
    var keys := SortKeys(q.order, kept, q.from.alias, env, db);
    var specs := ItemSpecs(q.order);
    assert specs == [];
    var keyed := seq(|kept|, i requires 0 <= i < |kept| => Keyed(keys[i], kept[i]));
    SortWithoutKeys(db.engine, keyed);
    assert SortRows(db.engine, specs, kept, keys) == kept;
  }

  lemma CompareCorrect(op: CompareOp, pgType: string, l: Expr, alias: string, root: string, n: nat, env: Env, db: Db)
    requires l.Col? || l.Call?
    requires alias in env && root in env && Older(alias, n)
    ensures EvalCond(CompareSql(op, pgType, l, alias, root, n).it, env, db) ==
            Meaning.CompareTruth(op, pgType, EvalExpr(l, env, db), db, env[alias], env[root])
  {
    match op
    case Bin(o, v) =>
    case BinAs(o, v, ty) =>
    case In(vs) => InCorrect(op, pgType, l, alias, root, n, env, db);
    case Nin(vs) => InCorrect(op, pgType, l, alias, root, n, env, db);
    case IsNull(yes) =>
    case Column(o, c, fromRoot) =>
      assert EvalExpr(Col(if fromRoot then root else alias, c), env, db) == Get(if fromRoot then env[root] else env[alias], c);
    case ColumnRel(o, t, join, c) => ColumnRelCorrect(t, join, c, alias, n, env, db);
  }

  lemma InCorrect(op: CompareOp, pgType: string, l: Expr, alias: string, root: string, n: nat, env: Env, db: Db)
    requires (op.In? || op.Nin?) && (l.Col? || l.Call?)
    requires alias in env && root in env
    ensures EvalCond(CompareSql(op, pgType, l, alias, root, n).it, env, db) ==
            Meaning.CompareTruth(op, pgType, EvalExpr(l, env, db), db, env[alias], env[root])
  {
    var v := EvalExpr(l, env, db);
    var items := Meaning.LitValues(db.engine, op.vs, pgType);
    LitsMeaning(op.vs, pgType, env, db);
    InListMeaning(db.engine, v, items);
    if op.vs != [] {
      var list := InList(db.engine, v, Evals(Lits(op.vs, pgType), env, db));
      assert EvalCond(CIn(l, Lits(op.vs, pgType)), env, db) == list;
      assert EvalCond(CNotIn(l, Lits(op.vs, pgType)), env, db) == Not3(list);
    }
  }

  lemma ColumnRelCorrect(t: Table, join: Join, column: string, alias: string, n: nat, env: Env, db: Db)
    requires alias in env && Older(alias, n)
    ensures
      var ra := AliasName(n);
      EvalExpr(FirstOf(t, ra, column, JoinConds(join, ra, alias)), env, db) ==
      Meaning.FirstColumn(Meaning.JoinedRows(db, t, join, env[alias]), column)
  {
    var ra := AliasName(n);
    var conds := JoinConds(join, ra, alias);
    var rows := Rows(db, t);
    var mask := WhereMask(rows, ra, conds, env, db);
    forall i | 0 <= i < |rows| ensures mask[i] == Meaning.Joined(join, env[alias], rows[i]) {
      var inner := env[ra := rows[i]];
      WhereJoined(join, ra, alias, [], inner, db);
      WhereMeaning([], inner, db);
      assert conds + [] == conds;
    }
    assert mask == seq(|rows|, i requires 0 <= i < |rows| => Meaning.Joined(join, env[alias], rows[i]));
    FirstOfMeaning(t, ra, column, conds, env, db, Keep(rows, mask));
  }

  // ----- predicates -----

  /** Main result for predicates. */
  lemma {:induction false} BoolCorrect(e: BoolExp, alias: string, root: string, n: nat, env: Env, db: Db)
    requires alias in env && root in env && Older(alias, n) && Older(root, n)
    ensures EvalCond(BoolSql(e, alias, root, n).it, env, db) == Meaning.Holds(e, db, env[alias], env[root])
    decreases e, 0
  {
    match e
    case And(exps) => AndCorrect(exps, alias, root, n, env, db);
    case Or(exps) => OrCorrect(exps, alias, root, n, env, db);
    case Not(x) => BoolCorrect(x, alias, root, n, env, db);
    case Compare(c, ty, op) => CompareCorrect(op, ty, Col(alias, c), alias, root, n, env, db);
    case ComputedCompare(fn, args, ty, op) =>
      RowArgsMeaning(args, alias, env, db.engine);
      CompareCorrect(op, ty, Call(fn, RowArgSql(args, alias)), alias, root, n, env, db);
    case Relationship(t, join, p) => RelationshipCorrect(e, alias, root, n, env, db);
    case RowFunctionExists(fn, args, p) => RowFunctionExistsCorrect(e, alias, root, n, env, db);
    case Exists(t, p) => ExistsCorrect(e, alias, root, n, env, db);
  }

  lemma {:induction false} BoolListCorrect(es: seq<BoolExp>, i: nat, alias: string, root: string, n: nat, env: Env, db: Db)
    requires i < |es|
    requires alias in env && root in env && Older(alias, n) && Older(root, n)
    ensures EvalCond(BoolListSql(es, alias, root, n).it[i], env, db) == Meaning.Holds(es[i], db, env[alias], env[root])
    decreases es, 1
  {
    var k := |es| - 1;
    var init := BoolListSql(es[..k], alias, root, n);
    if i < k {
      assert BoolListSql(es, alias, root, n).it[i] == init.it[i] && es[..k][i] == es[i];
      BoolListCorrect(es[..k], i, alias, root, n, env, db);
    } else {
      assert BoolListSql(es, alias, root, n).it[i] == BoolSql(es[k], alias, root, init.next).it;
      BoolCorrect(es[k], alias, root, init.next, env, db);
    }
  }

  lemma {:induction false} TruthsCorrect(es: seq<BoolExp>, alias: string, root: string, n: nat, env: Env, db: Db, ts: seq<Tri>)
    requires alias in env && root in env && Older(alias, n) && Older(root, n)
    requires ts == Truths(BoolListSql(es, alias, root, n).it, env, db)
    ensures |ts| == |es| && forall i :: 0 <= i < |es| ==> ts[i] == Meaning.Holds(es[i], db, env[alias], env[root])
    decreases es, 2
  {
    forall i | 0 <= i < |es| ensures ts[i] == Meaning.Holds(es[i], db, env[alias], env[root]) {
      BoolListCorrect(es, i, alias, root, n, env, db);
    }
  }

  lemma {:induction false} AndCorrect(es: seq<BoolExp>, alias: string, root: string, n: nat, env: Env, db: Db)
    requires alias in env && root in env && Older(alias, n) && Older(root, n)
    ensures EvalCond(BoolSql(And(es), alias, root, n).it, env, db) == Meaning.Holds(And(es), db, env[alias], env[root])
    decreases es, 3
  {
    var ts := Truths(BoolListSql(es, alias, root, n).it, env, db);
    TruthsCorrect(es, alias, root, n, env, db, ts);
    AndChainMeaning(ts);
    if es != [] {
      assert EvalCond(BoolSql(And(es), alias, root, n).it, env, db) == AndChain(ts);
    }
  }

  lemma {:induction false} OrCorrect(es: seq<BoolExp>, alias: string, root: string, n: nat, env: Env, db: Db)
    requires alias in env && root in env && Older(alias, n) && Older(root, n)
    ensures EvalCond(BoolSql(Or(es), alias, root, n).it, env, db) == Meaning.Holds(Or(es), db, env[alias], env[root])
    decreases es, 3
  {
    var ts := Truths(BoolListSql(es, alias, root, n).it, env, db);
    TruthsCorrect(es, alias, root, n, env, db, ts);
    OrChainMeaning(ts);
    if es != [] {
      assert EvalCond(BoolSql(Or(es), alias, root, n).it, env, db) == OrChain(ts);
    }
  }

  /** Rows of a subquery: the WHERE holds in the scope of a row exactly when the
      row is joined and the nested predicate is TRUE on it. The inner alias is
      new, so the outer alias and the root stay visible inside the subquery:
      this is where capture would show. */
  lemma {:induction false} ScopeCorrect(p: BoolExp, join: Join, alias: string, root: string, n: nat, row: Row,
    env: Env, db: Db)
    requires alias in env && root in env && Older(alias, n) && Older(root, n)
    ensures
      var ra := AliasName(n);
      var inner := BoolSql(p, ra, root, n + 1);
      WhereHolds(JoinConds(join, ra, alias) + [inner.it], env[ra := row], db) <==>
      Meaning.Joined(join, env[alias], row) && Meaning.Holds(p, db, row, env[root]).True?
    decreases p, 1
  {
    var ra := AliasName(n);
    var inner := BoolSql(p, ra, root, n + 1);
    var scope := env[ra := row];
    NumberedAliasIsOlder(n);
    BoolCorrect(p, ra, root, n + 1, scope, db);
    WhereJoined(join, ra, alias, [inner.it], scope, db);
    WhereSingle(inner.it, scope, db);
  }

  lemma {:induction false} SomeRelatedCorrect(p: BoolExp, join: Join, rows: seq<Row>, alias: string, root: string, n: nat,
    env: Env, db: Db)
    requires alias in env && root in env && Older(alias, n) && Older(root, n)
    ensures
      var ra := AliasName(n);
      var inner := BoolSql(p, ra, root, n + 1);
      SomeWhere(JoinConds(join, ra, alias) + [inner.it], ra, rows, env, db) <==>
      Meaning.SomeRelated(p, join, env[alias], rows, db, env[root])
    decreases p, 2
  {
    forall i | 0 <= i < |rows| {
      ScopeCorrect(p, join, alias, root, n, rows[i], env, db);
    }
  }

  lemma {:induction false} RelationshipCorrect(e: BoolExp, alias: string, root: string, n: nat, env: Env, db: Db)
    requires e.Relationship?
    requires alias in env && root in env && Older(alias, n) && Older(root, n)
    ensures EvalCond(BoolSql(e, alias, root, n).it, env, db) == Meaning.Holds(e, db, env[alias], env[root])
    decreases e.filter, 3
  {
    var ra := AliasName(n);
    var inner := BoolSql(e.filter, ra, root, n + 1);
    ExistsMeaning(FromTable(e.table, ra), JoinConds(e.join, ra, alias) + [inner.it], env, db);
    SomeRelatedCorrect(e.filter, e.join, Rows(db, e.table), alias, root, n, env, db);
  }

  lemma {:induction false} RowFunctionExistsCorrect(e: BoolExp, alias: string, root: string, n: nat, env: Env, db: Db)
    requires e.RowFunctionExists?
    requires alias in env && root in env && Older(alias, n) && Older(root, n)
    ensures EvalCond(BoolSql(e, alias, root, n).it, env, db) == Meaning.Holds(e, db, env[alias], env[root])
    decreases e.filter, 3
  {
    var ra := AliasName(n);
    var inner := BoolSql(e.filter, ra, root, n + 1);
    var from := FromCall(e.fn, RowArgSql(e.args, alias), ra);
    ExistsMeaning(from, [inner.it], env, db);
    RowArgsMeaning(e.args, alias, env, db.engine);
    SomeRelatedCorrect(e.filter, [], FromRows(from, env, db), alias, root, n, env, db);
    assert JoinConds([], ra, alias) + [inner.it] == [inner.it];
  }

  lemma {:induction false} SomeOwnCorrect(p: BoolExp, rows: seq<Row>, n: nat, env: Env, db: Db)
    ensures
      var ra := AliasName(n);
      SomeWhere([BoolSql(p, ra, ra, n + 1).it], ra, rows, env, db) <==> Meaning.SomeOwn(p, rows, db)
    decreases p, 2
  {
    var ra := AliasName(n);
    var c := BoolSql(p, ra, ra, n + 1).it;
    NumberedAliasIsOlder(n);
    forall i | 0 <= i < |rows|
      ensures WhereHolds([c], env[ra := rows[i]], db) <==> Meaning.Holds(p, db, rows[i], rows[i]).True?
    {
      BoolCorrect(p, ra, ra, n + 1, env[ra := rows[i]], db);
      WhereSingle(c, env[ra := rows[i]], db);
    }
  }

  lemma {:induction false} ExistsCorrect(e: BoolExp, alias: string, root: string, n: nat, env: Env, db: Db)
    requires e.Exists?
    requires alias in env && root in env && Older(alias, n) && Older(root, n)
    ensures EvalCond(BoolSql(e, alias, root, n).it, env, db) == Meaning.Holds(e, db, env[alias], env[root])
    decreases e.filter, 3
  {
    var ra := AliasName(n);
    ExistsMeaning(FromTable(e.table, ra), [BoolSql(e.filter, ra, ra, n + 1).it], env, db);
    SomeOwnCorrect(e.filter, Rows(db, e.table), n, env, db);
  }
}
