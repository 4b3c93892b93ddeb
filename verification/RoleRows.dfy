/** The rows a role is given, as its visible rows sifted further. */
module RoleRows {
  import opened Values
  import opened Database
  import opened Ir
  import opened Planner
  import opened SelectPlan
  import opened Meaning
  import opened Sifting
  import opened RoleView

  ghost function VisibleRows(ctx: TableCtx, w: World): seq<Row> {
    Sift(Rows(w.db, ctx.table), Sees(ctx, w))
  }

  ghost function Sees(ctx: TableCtx, w: World): Row -> bool {
    (r: Row) => RowVisible(ctx, w, r)
  }

  ghost function JoinedTo(outer: Outer): Row -> bool {
    (r: Row) => outer.NoOuter? || Joined(outer.join, outer.row, r)
  }

  /** Joined to the enclosing row and wanted by the user. */
  ghost function Asks(ctx: TableCtx, kind: Kind, args: Args, outer: Outer, w: World): Row -> bool {
    (r: Row) => JoinedTo(outer)(r) && Wanted(ctx, kind, args, w, r)
  }

  lemma IncludedIsSift(ctx: TableCtx, kind: Kind, args: Args, outer: Outer, w: World, both: Row -> bool)
    requires forall r :: both(r) == Included(ctx, kind, args, outer, w, r)
    ensures IncludedRows(ctx, kind, args, outer, w) == Sift(Rows(w.db, ctx.table), both)
  {
    var rows := Rows(w.db, ctx.table);
    KeepIsSift(rows, seq(|rows|, i requires 0 <= i < |rows| => Included(ctx, kind, args, outer, w, rows[i])), both);
  }

  lemma {:induction false} IncludedOfVisible(ctx: TableCtx, kind: Kind, args: Args, outer: Outer, w: World)
    ensures IncludedRows(ctx, kind, args, outer, w) == Sift(VisibleRows(ctx, w), Asks(ctx, kind, args, outer, w))
  {
    var both := (r: Row) => Included(ctx, kind, args, outer, w, r);
    IncludedIsSift(ctx, kind, args, outer, w, both);
    forall r ensures both(r) <==> Sees(ctx, w)(r) && Asks(ctx, kind, args, outer, w)(r) {
      assert JoinedTo(outer)(r) <==> outer.NoOuter? || Joined(outer.join, outer.row, r);
    }
    SiftTwice(Rows(w.db, ctx.table), Sees(ctx, w), Asks(ctx, kind, args, outer, w), both);
  }

  lemma RelatedIsSift(ctx: TableCtx, outer: Outer, w: World, both: Row -> bool)
    requires outer.Outer? && forall r :: both(r) == (Joined(outer.join, outer.row, r) && RowVisible(ctx, w, r))
    ensures RelatedRows(ctx, outer, w) == Sift(Rows(w.db, ctx.table), both)
  {
    var rows := Rows(w.db, ctx.table);
    KeepIsSift(rows, seq(|rows|, i requires 0 <= i < |rows| => Joined(outer.join, outer.row, rows[i]) && RowVisible(ctx, w, rows[i])), both);
  }

  lemma {:induction false} RelatedOfVisible(ctx: TableCtx, outer: Outer, w: World)
    requires outer.Outer?
    ensures RelatedRows(ctx, outer, w) == Sift(VisibleRows(ctx, w), JoinedTo(outer))
  {
    var both := (r: Row) => Joined(outer.join, outer.row, r) && RowVisible(ctx, w, r);
    RelatedIsSift(ctx, outer, w, both);
    SiftTwice(Rows(w.db, ctx.table), Sees(ctx, w), JoinedTo(outer), both);
  }

  /** Joined rows read through the role's own filter are visible rows. */
  lemma {:induction false} MatchingOfVisible(ctx: TableCtx, outer: Outer, filter: Option<BoolExp>, w: World)
    requires ctx.perms != [] && CombinedFilter(ctx.perms, ctx, w.md, w.s) == Ok(filter)
    ensures Matching(Rows(w.db, ctx.table), outer, filter, w.db) == Sift(VisibleRows(ctx, w), JoinedTo(outer))
  {
    var rows := Rows(w.db, ctx.table);
    var both := (r: Row) => Selected(outer, filter, w.db, r);
    KeepIsSift(rows, seq(|rows|, i requires 0 <= i < |rows| => Selected(outer, filter, w.db, rows[i])), both);
    forall r ensures both(r) <==> Sees(ctx, w)(r) && JoinedTo(outer)(r) {
      CombinedFilterMeaning(ctx.perms, ctx, w, r);
    }
    SiftTwice(rows, Sees(ctx, w), JoinedTo(outer), both);
  }
}
