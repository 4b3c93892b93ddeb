/** The role's view in terms of the JSON: which rows a role sees, which cells it is
    shown and which rows the user asks for, with no planner in between. */
module RoleReading {
  import opened Values
  import opened Database
  import opened Planner
  import opened SelectPlan
  import opened Meaning
  import opened RoleView
  import opened FilterReading
  import opened FilterReadingCorrect
  import opened FilterMeaning

  function ScopeOf(w: World): Scope {
    Scope(w.md, w.s, false, w.db)
  }

  lemma {:induction false} PassesReads(p: SelectPermission, ctx: TableCtx, w: World, row: Row)
    requires Unrestricted(p) || ParseBool(p.filter, ctx.(perms := []), w.md, w.s, true).Ok?
    ensures PassesPermission(p, ctx, w, row) <==> PermissionReads(p, ctx, ScopeOf(w), row, row)
  {
    if !Unrestricted(p) {
      Means(p.filter, ctx.(perms := []), ScopeOf(w).(perm := true), row, row);
    }
  }

  /** A row is visible exactly when the JSON of some permission of the role, with the
      session's values put in, is TRUE on it, or some permission has no filter. */
  lemma {:induction false} VisibleReads(ctx: TableCtx, w: World, row: Row)
    requires ctx.perms != [] && CombinedFilter(ctx.perms, ctx, w.md, w.s).Ok?
    ensures RowVisible(ctx, w, row) <==> SomePermissionReads(ctx, ScopeOf(w), row, row)
  {
    CombinedFilterMeaning(ctx.perms, ctx, w, row);
    PermissionsMean(ctx.perms, ctx, ScopeOf(w), row, row);
  }

  /** Some permission that grants the column passes the row. */
  ghost predicate ShowsCell(ctx: TableCtx, column: string, w: World, row: Row) {
    exists i :: 0 <= i < |ctx.perms| && (ctx.perms[i].columns.AllColumns? || column in ctx.perms[i].columns.names) &&
                PermissionReads(ctx.perms[i], ctx, ScopeOf(w), row, row)
  }

  /** A cell is shown exactly when such a permission grants its column. */
  lemma {:induction false} ShownReads(ctx: TableCtx, column: string, w: World, row: Row)
    requires forall i :: 0 <= i < |ctx.perms| ==> Unrestricted(ctx.perms[i]) || ParseBool(ctx.perms[i].filter, ctx.(perms := []), w.md, w.s, true).Ok?
    ensures CellShown(ctx, column, w, row) <==> ShowsCell(ctx, column, w, row)
  {
    forall i | 0 <= i < |ctx.perms|
      ensures PassesPermission(ctx.perms[i], ctx, w, row) <==> PermissionReads(ctx.perms[i], ctx, ScopeOf(w), row, row)
    {
      PassesReads(ctx.perms[i], ctx, w, row);
    }
  }

  /** What the user asks for, from the arguments' JSON: the key values of a `_by_pk`
      root, or the `where`. */
  ghost predicate Asks(ctx: TableCtx, kind: Kind, args: Args, w: World, row: Row) {
    if kind.ByPk? then forall i :: 0 <= i < |args.pk| ==> args.pk[i].0 in ctx.entry.columns && KeyIs(args.pk[i], ctx, w, row)
    else args.where.Some? ==> Reads(args.where.value, ctx, ScopeOf(w), row, row).True?
  }

  ghost predicate KeyIs(key: (string, Value), ctx: TableCtx, w: World, row: Row)
    requires key.0 in ctx.entry.columns
  {
    Equal(Get(row, key.0), TypedLiteral(w.db.engine, key.1, ctx.entry.columns[key.0])).True?
  }

  lemma {:induction false} WantedReads(ctx: TableCtx, kind: Kind, args: Args, w: World, row: Row)
    requires UserWhere(ctx, kind, args, w.md, w.s).Ok?
    ensures Wanted(ctx, kind, args, w, row) <==> Asks(ctx, kind, args, w, row)
  {
    var es := UserWhere(ctx, kind, args, w.md, w.s).value;
    if kind.ByPk? {
      KeysRead(ctx, args.pk, w, row);
    } else if args.where.Some? {
      UserMeans(args.where.value, ctx, ScopeOf(w), row, row);
      assert es[0] == ParseBool(args.where.value, ctx, w.md, w.s, false).value;
    }
  }

  lemma {:induction false} KeysRead(ctx: TableCtx, pk: seq<(string, Value)>, w: World, row: Row)
    requires PkPredicates(ctx, pk).Ok?
    ensures
      var es := PkPredicates(ctx, pk).value;
      |es| == |pk| && forall i :: 0 <= i < |pk| ==>
        pk[i].0 in ctx.entry.columns && (Holds(es[i], w.db, row, row).True? <==> KeyIs(pk[i], ctx, w, row))
  {
    forall i | 0 <= i < |pk| {
      LiteralSame(w.db.engine, pk[i].1, ctx.entry.columns[pk[i].0]);
    }
  }

  /** Main result: the rows of an accepted select, before ordering and limits, are
      the table's rows that are joined to the enclosing row, that the user's JSON
      asks for and that some permission's JSON passes. */
  lemma {:induction false} IncludedReads(ctx: TableCtx, kind: Kind, sel: Selection, outer: Outer, w: World, row: Row)
    requires BuildSelect(ctx, kind, sel, w.md, w.s).Ok? && ctx.perms != []
    ensures Included(ctx, kind, sel.args, outer, w, row) <==>
            (outer.NoOuter? || Joined(outer.join, outer.row, row)) && Asks(ctx, kind, sel.args, w, row) &&
            SomePermissionReads(ctx, ScopeOf(w), row, row)
  {
    VisibleReads(ctx, w, row);
    WantedReads(ctx, kind, sel.args, w, row);
  }

  // ----- cells -----

  /** How a cell leaves the database: geometry as GeoJSON, wide numbers as text where
      that is asked for, the rest as it is. */
  function Leaves(eng: Engine, pgType: string, stringify: bool, v: Value): Value {
    if v.Null? then Null
    else if pgType == "geometry" || pgType == "geography" then eng.render(AsGeoJson, v)
    else if stringify && (pgType == "int8" || pgType == "numeric") then eng.render(AsText, v)
    else v
  }

  /** A selected column is the row's cell where the permissions' JSON shows it, and
      NULL elsewhere. */
  lemma {:induction false} CellReads(sel: Selection, ctx: TableCtx, w: World, row: Row)
    requires sel.name != "__typename" && ColumnAllowed(ctx, sel.name)
    requires forall i :: 0 <= i < |ctx.perms| ==> Unrestricted(ctx.perms[i]) || ParseBool(ctx.perms[i].filter, ctx.(perms := []), w.md, w.s, true).Ok?
    ensures SeeField(sel, ctx, w, row) ==
            if ShowsCell(ctx, sel.name, w, row) then Leaves(w.db.engine, ctx.entry.columns[sel.name], w.stringify, Get(row, sel.name)) else Null
  {
    ShownReads(ctx, sel.name, w, row);
  }
}
