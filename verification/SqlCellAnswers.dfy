/** The same for the SQL: the statement that answers a role's query returns the
    same JSON on databases that agree only on the cells the role is shown. */
module SqlCellAnswers {
  import opened Sql
  import opened SqlGen
  import opened Planner
  import opened SelectPlan
  import opened Selections
  import opened EndToEnd
  import opened CellFilters
  import opened CellAnswers
  import Meaning

  lemma ShownTest(p: Two)
    ensures Implies(AnswerTest(One(p)), AnswerTest(Other(p)))
  {
  }

  lemma {:induction false} SqlAnswersAlike(ctx: TableCtx, kind: Kind, sel: Selection, n: nat, p: Two)
    requires ShownAgree(p) && TableCtxOf(p.md, ctx.table, p.s).Some? && TableCtxOf(p.md, ctx.table, p.s).value == ctx
    requires BuildSelect(ctx, kind, sel, p.md, p.s).Ok? && ShowsSelect(kind, sel, ctx, p)
    requires EverySelect(kind, sel.sub, ctx, p.md, p.s, AnswerTest(One(p)))
    ensures
      var sql := SelectSql(BuildSelect(ctx, kind, sel, p.md, p.s).value, NoRef, n, p.stringify).it;
      EvalExpr(sql, map[], One(p).db) == EvalExpr(sql, map[], Other(p).db)
  {
    ShownTest(p);
    WeakerSelect(kind, sel.sub, ctx, p.md, p.s, AnswerTest(One(p)), AnswerTest(Other(p)));
    RoleSees(ctx, kind, sel, n, One(p));
    RoleSees(ctx, kind, sel, n, Other(p));
    SelectAlike(ctx, kind, sel, Meaning.NoOuter, Meaning.NoOuter, p);
  }
}
