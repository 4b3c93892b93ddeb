/** Freshness of the row source's alias is not only enough for a predicate to
    keep its truth value, it is necessary: a name that the counter can still hand
    out (a table called _t7 in an ON CONFLICT predicate, which the generator
    addresses by table name) is captured by a subquery of some predicate. */
module AliasCapture {
  import opened Values
  import opened Database
  import opened Ir
  import opened Sql
  import opened SqlGen
  import opened PredicateCorrect
  import Meaning

  /** `m` predicates that each use up one alias, then a relationship. */
  function Captured(items: Table, m: nat): seq<BoolExp> {
    if m == 0 then [] else Captured(items, m - 1) + [Exists(items, And([]))]
  }

  function Owned(items: Table): BoolExp {
    Relationship(items, [("owner", "id")], And([]))
  }

  const OWNER: Row := map["owner" := Num(1)]
  const ITEM: Row := map["id" := Num(1)]

  function ItemTables(items: Table): map<Table, seq<Row>> {
    map[items := [ITEM]]
  }

  function Items(items: Table, eng: Engine): Db {
    Db(ItemTables(items), eng)
  }

  function CaptureExp(items: Table, m: nat): BoolExp {
    And(Captured(items, m) + [Owned(items)])
  }

  lemma {:induction false} FillerAdvances(items: Table, alias: string, n: nat)
    ensures BoolSql(Exists(items, And([])), alias, alias, n).next == n + 1
  {
    var ra := AliasName(n);
    assert BoolListSql([], ra, ra, n + 1).next == n + 1;
    assert BoolSql(And([]), ra, ra, n + 1).next == n + 1;
  }

  lemma {:induction false} FillersAdvance(items: Table, m: nat, alias: string, n: nat)
    ensures |Captured(items, m)| == m && BoolListSql(Captured(items, m), alias, alias, n).next == n + m
  {
    if m > 0 {
      FillersAdvance(items, m - 1, alias, n);
      assert Captured(items, m)[..m - 1] == Captured(items, m - 1);
      FillerAdvances(items, alias, n + m - 1);
    }
  }

  lemma {:induction false} FillersHold(items: Table, m: nat, eng: Engine, row: Row, i: nat)
    requires i < |Captured(items, m)|
    ensures Meaning.Holds(Captured(items, m)[i], Items(items, eng), row, row).True?
  {
    var db := Items(items, eng);
    if i < |Captured(items, m - 1)| {
      FillersHold(items, m - 1, eng, row, i);
    } else {
      assert Meaning.Holds(And([]), db, Rows(db, items)[0], Rows(db, items)[0]).True?;
      assert Meaning.SomeOwn(And([]), Rows(db, items), db);
    }
  }

  lemma {:induction false} OwnedHolds(items: Table, eng: Engine)
    ensures Meaning.Holds(Owned(items), Items(items, eng), OWNER, OWNER).True?
  {
    var db := Items(items, eng);
    var rows := Rows(db, items);
    assert Meaning.Joined([("owner", "id")], OWNER, rows[0]) && Meaning.Holds(And([]), db, rows[0], OWNER).True?;
    assert Meaning.SomeRelated(And([]), [("owner", "id")], OWNER, rows, db, OWNER);
  }

  /** Under the alias that the subquery takes, the join compares the item with
      itself and finds no owner. */
  lemma {:induction false} OwnedIsCaptured(items: Table, eng: Engine, k: nat)
    ensures
      var a := AliasName(k);
      EvalCond(BoolSql(Owned(items), a, a, k).it, map[a := OWNER], Items(items, eng)).False?
  {
    var a, db := AliasName(k), Items(items, eng);
    var conds := JoinConds([("owner", "id")], a, a) + [CTrue];
    var env := map[a := OWNER];
    ExistsMeaning(FromTable(items, a), conds, env, db);
    var scope := env[a := ITEM];
    assert Rows(db, items) == [ITEM];
    WhereMeaning(conds, scope, db);
    assert conds[0] == CCmp(Eq, Col(a, "id"), Col(a, "owner"));
    assert EvalExpr(Col(a, "owner"), scope, db) == Null;
    assert EvalCond(conds[0], scope, db).Unknown?;
    assert !SomeWhere(conds, a, Rows(db, items), env, db);
  }

  lemma {:induction false} CaptureHolds(items: Table, m: nat, eng: Engine)
    ensures Meaning.Holds(CaptureExp(items, m), Items(items, eng), OWNER, OWNER).True?
  {
    var es := Captured(items, m) + [Owned(items)];
    forall i | 0 <= i < |es| ensures Meaning.Holds(es[i], Items(items, eng), OWNER, OWNER).True? {
      if i < |Captured(items, m)| {
        FillersHold(items, m, eng, OWNER, i);
      } else {
        OwnedHolds(items, eng);
      }
    }
  }

  /** For every alias at or above the counter, a predicate that holds and reads
      as FALSE. */
  lemma {:induction false} NumberedNameIsCaptured(items: Table, n: nat, k: nat, a: string, e: BoolExp, eng: Engine)
    requires k >= n && a == AliasName(k) && e == CaptureExp(items, k - n)
    ensures Meaning.Holds(e, Items(items, eng), OWNER, OWNER).True?
    ensures EvalCond(BoolSql(e, a, a, n).it, map[a := OWNER], Items(items, eng)).False?
  {
    CaptureHolds(items, k - n, eng);
    CaptureReadsFalse(items, n, k - n, eng, a, e.exps);
  }

  lemma {:induction false} CaptureReadsFalse(items: Table, n: nat, m: nat, eng: Engine, a: string, es: seq<BoolExp>)
    requires a == AliasName(n + m) && es == Captured(items, m) + [Owned(items)]
    ensures EvalCond(BoolSql(And(es), a, a, n).it, map[a := OWNER], Items(items, eng)).False?
  {
    FillersAdvance(items, m, a, n);
    assert es[..m] == Captured(items, m) && es[m] == Owned(items);
    OwnedIsCaptured(items, eng, n + m);
    LastOfList(es, a, n, m);
    FalseInChain(BoolListSql(es, a, a, n).it, m, map[a := OWNER], Items(items, eng));
    AndSql(es, a, n);
  }

  lemma {:induction false} AndSql(es: seq<BoolExp>, a: string, n: nat)
    requires es != []
    ensures BoolSql(And(es), a, a, n).it == CAnd(BoolListSql(es, a, a, n).it)
  {
  }

  lemma {:induction false} FalseInChain(conds: seq<Cond>, i: nat, env: Env, db: Db)
    requires i < |conds| && EvalCond(conds[i], env, db).False?
    ensures EvalCond(CAnd(conds), env, db).False?
  {
    AndChainMeaning(Truths(conds, env, db));
    assert Truths(conds, env, db)[i].False?;
  }

  lemma {:induction false} LastOfList(es: seq<BoolExp>, a: string, n: nat, m: nat)
    requires |es| == m + 1 && BoolListSql(es[..m], a, a, n).next == n + m
    ensures BoolListSql(es, a, a, n).it[m] == BoolSql(es[m], a, a, n + m).it
  {
  }

  /** Main result: a row source keeps every predicate's truth value exactly when
      its alias can no longer be handed out. */
  lemma {:induction false} OlderIsExact(alias: string, n: nat, items: Table, eng: Engine)
    ensures Older(alias, n) <==>
      forall e, tables, row :: KeepsTruth(e, alias, n, tables, row, eng)
  {
    if Older(alias, n) {
      forall e, tables, row ensures KeepsTruth(e, alias, n, tables, row, eng) {
        BoolCorrect(e, alias, alias, n, map[alias := row], Db(tables, eng));
      }
    } else {
      var k: nat :| k >= n && alias == AliasName(k);
      var e := CaptureExp(items, k - n);
      NumberedNameIsCaptured(items, n, k, alias, e, eng);
      Differs(e, alias, n, ItemTables(items), OWNER, eng);
    }
  }

  ghost predicate KeepsTruth(e: BoolExp, alias: string, n: nat, tables: map<Table, seq<Row>>, row: Row, eng: Engine) {
    EvalCond(BoolSql(e, alias, alias, n).it, map[alias := row], Db(tables, eng)) == Meaning.Holds(e, Db(tables, eng), row, row)
  }

  lemma {:induction false} Differs(e: BoolExp, alias: string, n: nat, tables: map<Table, seq<Row>>, row: Row, eng: Engine)
    requires Meaning.Holds(e, Db(tables, eng), row, row).True?
    requires EvalCond(BoolSql(e, alias, alias, n).it, map[alias := row], Db(tables, eng)).False?
    ensures !KeepsTruth(e, alias, n, tables, row, eng)
  {
  }
}
