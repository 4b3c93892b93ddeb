/** `returning` of a mutation (crates/schema plan_mutation.rs): the touched rows
    are shown through the role's column grants and cell guards, but not through
    its select row filter. Exactly when that shows what a select would. */
module ReturningView {
  import opened Values
  import opened Database
  import opened Ir
  import opened Planner
  import opened SelectPlan
  import opened Selections
  import opened Meaning
  import opened RoleView

  /** A guard rejects a row that no permission passes. */
  lemma {:induction false} InvisibleGuarded(ctx: TableCtx, column: string, w: World, row: Row, guard: BoolExp)
    requires !RowVisible(ctx, w, row) && ColumnAllowed(ctx, column) && Guard(ctx, column, w.md, w.s) == Ok(Some(guard))
    ensures Cell(column, Some(guard), row, w.db) == Null
  {
    var granting := Granting(ctx.perms, column);
    CombinedFilterMeaning(granting, ctx, w, row);
    SomeGrantingPasses(ctx, column, w, row);
  }

  /** Main result: a returned column shows what a select would show exactly when
      the select filter passes the row, the column is guarded, or there is nothing
      to show. */
  lemma {:induction false} ReturnedCellExact(sel: Selection, ctx: TableCtx, w: World, row: Row)
    requires PlanField(sel, ctx, w.md, w.s).Ok? && ctx.perms != [] && sel.name != "__typename" && ColumnAllowed(ctx, sel.name)
    ensures
      var stored := Render(w.db.engine, OutputRendering(ctx.entry.columns[sel.name], w.stringify), Get(row, sel.name));
      FieldJson(PlanField(sel, ctx, w.md, w.s).value, row, w.db, w.stringify) == SeeField(sel, ctx, w, row) <==>
      RowVisible(ctx, w, row) || Guard(ctx, sel.name, w.md, w.s).value.Some? || stored == Null
  {
    var guard := Guard(ctx, sel.name, w.md, w.s).value;
    if RowVisible(ctx, w, row) {
      ColumnSeen(sel, ctx, w, row);
    } else if guard.Some? {
      InvisibleGuarded(ctx, sel.name, w, row, guard.value);
    }
  }

  /** When the select filter passes every touched row, `returning` is the role's
      view of them. */
  lemma {:induction false} ReturnedRowsSeen(sels: seq<Selection>, ctx: TableCtx, w: World, rows: seq<Row>)
    requires PlanFields(sels, ctx, w.md, w.s).Ok? && ctx.perms != [] && (forall r :: r in rows ==> RowVisible(ctx, w, r))
    requires EveryField(sels, ctx, w.md, w.s, SeenTest(w))
    ensures RowsJson(PlanFields(sels, ctx, w.md, w.s).value, rows, w.db, w.stringify) == Arr(SeeRowList(sels, ctx, w, rows))
  {
    RowListSeen(sels, ctx, w, rows);
  }
}
