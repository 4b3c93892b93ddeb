/** From a role and a selection to the JSON that Postgres returns: planner,
    compiler and evaluator composed. */
module EndToEnd {
  import opened Values
  import opened Database
  import opened Ir
  import opened Sql
  import opened SqlGen
  import opened Planner
  import opened SelectPlan
  import opened Selections
  import opened RoleView
  import opened PlanShape
  import opened SelectCorrect
  import Meaning

  // ----- end to end -----

  /** What the end-to-end result asks of every aggregate selection reached: it
      contains an aggregate call, and, for counts to range over shown cells, it
      counts only columns that need no guard. */
  function AnswerTest(w: World): AggregateTest {
    (sels, ctx) => Calls(sels, ctx) && (w.counts.Stored? || CountsUnguarded(sels, ctx, w.md, w.s))
  }

  lemma {:induction false} CallsHasEntry(sels: seq<Selection>, ctx: TableCtx)
    requires Calls(sels, ctx)
    ensures HasEntry(sels)
  {
    var i :| 0 <= i < |sels| && Selections.EntryCalls(sels[i], ctx);
  }

  lemma {:induction false} AnswerTests(w: World)
    ensures Implies(AnswerTest(w), SeenTest(w)) && Implies(AnswerTest(w), WellFormedTest())
  {
    forall sels, ctx | AnswerTest(w)(sels, ctx) ensures SeenTest(w)(sels, ctx) && WellFormedTest()(sels, ctx) {
      CallsHasEntry(sels, ctx);
    }
  }

  /** Main result: for every selection of which every aggregate part contains an
      aggregate call, the SQL of a root select returns what the role may see. */
  lemma {:induction false} RoleSees(ctx: TableCtx, kind: Kind, sel: Selection, n: nat, w: World)
    requires BuildSelect(ctx, kind, sel, w.md, w.s).Ok? && ctx.perms != []
    requires EverySelect(kind, sel.sub, ctx, w.md, w.s, AnswerTest(w))
    ensures EvalExpr(SelectSql(BuildSelect(ctx, kind, sel, w.md, w.s).value, NoRef, n, w.stringify).it, map[], w.db) ==
            SeeSelect(ctx, kind, sel, Meaning.NoOuter, w)
  {
    AnswerTests(w);
    WeakerSelect(kind, sel.sub, ctx, w.md, w.s, AnswerTest(w), SeenTest(w));
    WeakerSelect(kind, sel.sub, ctx, w.md, w.s, AnswerTest(w), WellFormedTest());
    PlanWellFormed(ctx, kind, sel, w, false);
    SqlSees(ctx, kind, sel, n, w, BuildSelect(ctx, kind, sel, w.md, w.s).value);
  }

  lemma {:induction false} SqlSees(ctx: TableCtx, kind: Kind, sel: Selection, n: nat, w: World, q: SelectQuery)
    requires BuildSelect(ctx, kind, sel, w.md, w.s) == Ok(q) && ctx.perms != [] && WellFormed(q, false)
    requires EverySelect(kind, sel.sub, ctx, w.md, w.s, SeenTest(w))
    ensures EvalExpr(SelectSql(q, NoRef, n, w.stringify).it, map[], w.db) == SeeSelect(ctx, kind, sel, Meaning.NoOuter, w)
  {
    SelectCorrect.SelectCorrect(q, NoRef, Meaning.NoOuter, n, map[], w.db, w.stringify);
    SelectSeen(ctx, kind, sel, Meaning.NoOuter, w);
  }

  /** Under a permission limit, an aggregate root that asks for `nodes` but not
      for `aggregate` is answered correctly exactly when one row matches. */
  lemma {:induction false} NodesOnlyUnderLimit(ctx: TableCtx, sel: Selection, n: nat, w: World)
    requires BuildSelect(ctx, Aggregation, sel, w.md, w.s).Ok? && ctx.perms != []
    requires PermLimit(ctx.perms).Some? && HasEntry(sel.sub)
    requires forall i :: 0 <= i < |sel.sub| ==> sel.sub[i].name != "aggregate" && AggregateFree(sel.sub[i])
    ensures EvalExpr(SelectSql(BuildSelect(ctx, Aggregation, sel, w.md, w.s).value, NoRef, n, w.stringify).it, map[], w.db) ==
            SeeSelect(ctx, Aggregation, sel, Meaning.NoOuter, w) <==>
            |SeenRows(ctx, Aggregation, sel.args, Meaning.NoOuter, w)| == 1
  {
    var q := BuildSelect(ctx, Aggregation, sel, w.md, w.s).value;
    NodesPass(sel.sub, ctx, w.md, w.s, SeenTest(w));
    NodesPass(sel.sub, ctx, w.md, w.s, WellFormedTest());
    EntryCount(sel.sub, ctx, w);
    EntriesWellFormed(sel.sub, ctx, w, q);
    EntriesCall(sel.sub, ctx, w, q);
    assert !Calls(sel.sub, ctx);
    NodesOnlyExact(ctx, sel, n, w, q);
  }

  lemma {:induction false} NodesOnlyExact(ctx: TableCtx, sel: Selection, n: nat, w: World, q: SelectQuery)
    requires BuildSelect(ctx, Aggregation, sel, w.md, w.s) == Ok(q) && ctx.perms != []
    requires WellFormedEntries(q) && IsAggregate(q.fields) && !Aggregates(q)
    requires EverySelect(Aggregation, sel.sub, ctx, w.md, w.s, SeenTest(w))
    ensures EvalExpr(SelectSql(q, NoRef, n, w.stringify).it, map[], w.db) == SeeSelect(ctx, Aggregation, sel, Meaning.NoOuter, w) <==>
            |SeenRows(ctx, Aggregation, sel.args, Meaning.NoOuter, w)| == 1
  {
    PlanSeen(ctx, Aggregation, sel, w, q);
    CallFree(q, n, w, SelectSql(q, NoRef, n, w.stringify).it, Meaning.SelectRows(q, Meaning.NoOuter, w.db),
      Meaning.SelectJson(q, Meaning.NoOuter, w.db, w.stringify));
  }

  lemma {:induction false} PlanSeen(ctx: TableCtx, kind: Kind, sel: Selection, w: World, q: SelectQuery)
    requires BuildSelect(ctx, kind, sel, w.md, w.s) == Ok(q) && ctx.perms != []
    requires EverySelect(kind, sel.sub, ctx, w.md, w.s, SeenTest(w))
    ensures q.source.Scan? && Meaning.SelectRows(q, Meaning.NoOuter, w.db) == SeenRows(ctx, kind, sel.args, Meaning.NoOuter, w)
    ensures Meaning.SelectJson(q, Meaning.NoOuter, w.db, w.stringify) == SeeSelect(ctx, kind, sel, Meaning.NoOuter, w)
  {
    RowsSeen(ctx, kind, sel, Meaning.NoOuter, w, q);
    SelectSeen(ctx, kind, sel, Meaning.NoOuter, w);
  }

  lemma {:induction false} CallFree(q: SelectQuery, n: nat, w: World, e: Expr, rows: seq<Row>, json: Value)
    requires WellFormedEntries(q) && IsAggregate(q.fields) && !Aggregates(q) && q.source.Scan?
    requires e == SelectSql(q, NoRef, n, w.stringify).it
    requires rows == Meaning.SelectRows(q, Meaning.NoOuter, w.db) && json == Meaning.SelectJson(q, Meaning.NoOuter, w.db, w.stringify)
    ensures EvalExpr(e, map[], w.db) == json <==> |rows| == 1
  {
    AggregateExact(q, NoRef, Meaning.NoOuter, n, map[], w.db, w.stringify);
  }
}
