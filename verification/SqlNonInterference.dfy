/** The same for the SQL: the statement that answers a role's query returns the
    same JSON on databases that agree on what the role can see. */
module SqlNonInterference {
  import opened Sql
  import opened SqlGen
  import opened Planner
  import opened SelectPlan
  import opened Selections
  import opened ResponseNonInterference
  import opened EndToEnd
  import Meaning

  lemma SameTest(p: Pair)
    ensures Implies(AnswerTest(First(p)), AnswerTest(Second(p)))
  {
  }

  lemma {:induction false} SqlAnswersSame(ctx: TableCtx, kind: Kind, sel: Selection, n: nat, p: Pair)
    requires Setting(p) && TableCtxOf(p.md, ctx.table, p.s).Some? && TableCtxOf(p.md, ctx.table, p.s).value == ctx
    requires BuildSelect(ctx, kind, sel, p.md, p.s).Ok? && ConfinedSelect(kind, sel, ctx, p)
    requires EverySelect(kind, sel.sub, ctx, p.md, p.s, AnswerTest(First(p)))
    ensures
      var sql := SelectSql(BuildSelect(ctx, kind, sel, p.md, p.s).value, NoRef, n, p.stringify).it;
      EvalExpr(sql, map[], First(p).db) == EvalExpr(sql, map[], Second(p).db)
  {
    SameTest(p);
    WeakerSelect(kind, sel.sub, ctx, p.md, p.s, AnswerTest(First(p)), AnswerTest(Second(p)));
    RoleSees(ctx, kind, sel, n, First(p));
    RoleSees(ctx, kind, sel, n, Second(p));
    SelectSame(ctx, kind, sel, Meaning.NoOuter, p);
  }
}
