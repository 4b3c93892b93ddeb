/** The whole answer to a role's query depends only on the rows the role can see:
    on two databases that agree on them, a confined selection is answered with
    the same JSON, at any depth of relationships and aggregates. */
module ResponseNonInterference {
  import opened Values
  import opened Database
  import opened Ir
  import opened Planner
  import opened OrderPlan
  import opened SelectPlan
  import opened Meaning
  import opened Sifting
  import opened NonInterference
  import opened RoleView
  import opened RoleRows

  /** Two databases under one engine, and the role that queries them. */
  datatype Pair = Pair(md: Metadata, s: Session, eng: Engine, t1: Tables, t2: Tables, stringify: bool, counts: CountReading,
                       access: Table -> Access)

  function First(p: Pair): World {
    World(p.md, p.s, Db(p.t1, p.eng), p.stringify, p.counts)
  }

  function Second(p: Pair): World {
    World(p.md, p.s, Db(p.t2, p.eng), p.stringify, p.counts)
  }

  ghost predicate LocalPermission(perm: SelectPermission, ctx: TableCtx, md: Metadata, s: Session) {
    var f := ParseBool(perm.filter, ctx.(perms := []), md, s, true);
    !Unrestricted(perm) && f.Ok? ==> RowLocal(f.value)
  }

  ghost predicate LocalCtx(ctx: TableCtx, md: Metadata, s: Session) {
    forall i :: 0 <= i < |ctx.perms| ==> LocalPermission(ctx.perms[i], ctx, md, s)
  }

  /** Every permission of the role is decided by the row alone. */
  ghost predicate LocalPermissions(md: Metadata, s: Session) {
    forall t :: TableCtxOf(md, t, s).Some? ==> LocalCtx(TableCtxOf(md, t, s).value, md, s)
  }

  ghost predicate Setting(p: Pair) {
    IsAccess(p.access, p.md, p.s) && LocalPermissions(p.md, p.s) && Agree(p.eng, p.t1, p.t2, p.access)
  }

  // ----- permissions -----

  /** The combined filter of row-local permissions is row-local. */
  lemma {:induction false} PartsLocal(perms: seq<SelectPermission>, ctx: TableCtx, md: Metadata, s: Session)
    requires forall i :: 0 <= i < |perms| ==> LocalPermission(perms[i], ctx, md, s)
    requires FilterParts(perms, ctx, md, s).Ok? && FilterParts(perms, ctx, md, s).value.Some?
    ensures
      var parts := FilterParts(perms, ctx, md, s).value.value;
      forall i :: 0 <= i < |parts| ==> RowLocal(parts[i])
  {
    if perms != [] {
      var n := |perms| - 1;
      assert LocalPermission(perms[n], ctx, md, s);
      PartsLocal(perms[..n], ctx, md, s);
    }
  }

  lemma FiltersLocal(p: Pair)
    requires IsAccess(p.access, p.md, p.s) && LocalPermissions(p.md, p.s)
    ensures LocalFilters(p.access)
  {
    forall t | p.access(t).Seen? && p.access(t).filter.Some? ensures RowLocal(p.access(t).filter.value) {
      assert p.access(t) == AccessOf(p.md, p.s, t);
      var ctx := TableCtxOf(p.md, t, p.s).value;
      assert LocalCtx(ctx, p.md, p.s);
      PartsLocal(ctx.perms, ctx, p.md, p.s);
    }
  }

  lemma PermissionSame(perm: SelectPermission, ctx: TableCtx, p: Pair, row: Row)
    requires LocalPermission(perm, ctx, p.md, p.s)
    ensures PassesPermission(perm, ctx, First(p), row) == PassesPermission(perm, ctx, Second(p), row)
  {
    var f := ParseBool(perm.filter, ctx.(perms := []), p.md, p.s, true);
    if !Unrestricted(perm) && f.Ok? {
      RowLocalStable(f.value, Db(p.t1, p.eng), Db(p.t2, p.eng), row, row, row);
    }
  }

  lemma ShownCellSame(ctx: TableCtx, column: string, p: Pair, row: Row)
    requires LocalCtx(ctx, p.md, p.s)
    ensures ShownCell(ctx, column, First(p), row) == ShownCell(ctx, column, Second(p), row)
  {
    forall i | 0 <= i < |ctx.perms|
      ensures PassesPermission(ctx.perms[i], ctx, First(p), row) == PassesPermission(ctx.perms[i], ctx, Second(p), row)
    {
      PermissionSame(ctx.perms[i], ctx, p, row);
    }
  }

  // ----- rows -----

  /** The context of a tracked table, with its filters readable. */
  ghost predicate Reached(ctx: TableCtx, p: Pair) {
    TableCtxOf(p.md, ctx.table, p.s) == Some(ctx) && CombinedFilter(ctx.perms, ctx, p.md, p.s).Ok?
  }

  /** The visible rows of a table, sifted further by any property, are the same. */
  lemma VisibleSifted(ctx: TableCtx, p: Pair, w: World, q: Row -> bool, both: Row -> bool)
    requires Setting(p) && Reached(ctx, p) && (w == First(p) || w == Second(p))
    requires forall r :: both(r) <==> RowVisible(ctx, w, r) && q(r)
    ensures Sift(Rows(w.db, ctx.table), both) == Sift(Visible(w.db, ctx.table, p.access(ctx.table).filter), q)
  {
    var rows := Rows(w.db, ctx.table);
    var filter := CombinedFilter(ctx.perms, ctx, p.md, p.s).value;
    assert p.access(ctx.table) == AccessOf(p.md, p.s, ctx.table) == Seen(filter);
    var visible := (r: Row) => RowVisible(ctx, w, r);
    var mask := seq(|rows|, i requires 0 <= i < |rows| => Selected(NoOuter, filter, w.db, rows[i]));
    forall i | 0 <= i < |rows| ensures mask[i] == visible(rows[i]) {
      CombinedFilterMeaning(ctx.perms, ctx, w, rows[i]);
    }
    KeepIsSift(rows, mask, visible);
    SiftTwice(rows, visible, q, both);
  }

  lemma SiftedSame(ctx: TableCtx, p: Pair, q: Row -> bool, both1: Row -> bool, both2: Row -> bool)
    requires Setting(p) && Reached(ctx, p)
    requires forall r :: both1(r) <==> RowVisible(ctx, First(p), r) && q(r)
    requires forall r :: both2(r) <==> RowVisible(ctx, Second(p), r) && q(r)
    ensures Sift(Rows(First(p).db, ctx.table), both1) == Sift(Rows(Second(p).db, ctx.table), both2)
  {
    VisibleSifted(ctx, p, First(p), q, both1);
    VisibleSifted(ctx, p, Second(p), q, both2);
    assert p.access(ctx.table) == AccessOf(p.md, p.s, ctx.table);
  }

  // ----- what the caller asked for -----

  /** An ordering reads other tables only through the role's own filter on them. */
  ghost predicate ConfinedTarget(target: OrderTarget, access: Table -> Access) {
    match target
    case ByColumn(_) => true
    case ByRelated(t, _, _, filter) => access(t) == Seen(filter)
    case ByAggregate(t, _, _, _, filter) => access(t) == Seen(filter)
  }

  ghost predicate ConfinedArgs(kind: Kind, args: Args, ctx: TableCtx, p: Pair) {
    !kind.ByPk? && args.where.Some? ==> Confined(args.where.value, ctx, p.md, p.s, p.access)
  }

  lemma PkSame(ctx: TableCtx, pk: seq<(string, Value)>, p: Pair, row: Row, i: nat)
    requires PkPredicates(ctx, pk).Ok? && i < |PkPredicates(ctx, pk).value|
    ensures
      var e := PkPredicates(ctx, pk).value[i];
      Holds(e, Db(p.t1, p.eng), row, row) == Holds(e, Db(p.t2, p.eng), row, row)
  {
  }

  lemma WantedSame(ctx: TableCtx, kind: Kind, args: Args, p: Pair, row: Row)
    requires Setting(p) && ConfinedArgs(kind, args, ctx, p)
    ensures Wanted(ctx, kind, args, First(p), row) == Wanted(ctx, kind, args, Second(p), row)
  {
    FiltersLocal(p);
    var user := UserWhere(ctx, kind, args, p.md, p.s);
    if user.Ok? {
      forall i | 0 <= i < |user.value|
        ensures Holds(user.value[i], Db(p.t1, p.eng), row, row) == Holds(user.value[i], Db(p.t2, p.eng), row, row)
      {
        if kind.ByPk? {
          PkSame(ctx, args.pk, p, row, i);
        } else {
          WhereNonInterference(args.where.value, ctx, p.md, p.s, p.access, p.eng, p.t1, p.t2, row);
        }
      }
    }
  }

  lemma IncludedSame(ctx: TableCtx, kind: Kind, args: Args, outer: Outer, p: Pair)
    requires Setting(p) && Reached(ctx, p) && ConfinedArgs(kind, args, ctx, p)
    ensures IncludedRows(ctx, kind, args, outer, First(p)) == IncludedRows(ctx, kind, args, outer, Second(p))
  {
    var w1, w2 := First(p), Second(p);
    var q := (r: Row) => (outer.NoOuter? || Joined(outer.join, outer.row, r)) && Wanted(ctx, kind, args, w1, r);
    var both1, both2 := (r: Row) => Included(ctx, kind, args, outer, w1, r), (r: Row) => Included(ctx, kind, args, outer, w2, r);
    forall r ensures both2(r) <==> RowVisible(ctx, w2, r) && q(r) {
      WantedSame(ctx, kind, args, p, r);
    }
    SiftedSame(ctx, p, q, both1, both2);
    IncludedIsSift(ctx, kind, args, outer, w1, both1);
    IncludedIsSift(ctx, kind, args, outer, w2, both2);
  }

  // ----- ordering -----

  /** Joined rows of a table, read through the role's filter. */
  lemma MatchingSame(t: Table, outer: Outer, filter: Option<BoolExp>, p: Pair)
    requires Setting(p) && p.access(t) == Seen(filter)
    ensures Matching(Rows(Db(p.t1, p.eng), t), outer, filter, Db(p.t1, p.eng)) ==
            Matching(Rows(Db(p.t2, p.eng), t), outer, filter, Db(p.t2, p.eng))
  {
    FiltersLocal(p);
    MatchingIsSift(t, outer, filter, Db(p.t1, p.eng));
    MatchingIsSift(t, outer, filter, Db(p.t2, p.eng));
  }

  lemma MatchingIsSift(t: Table, outer: Outer, filter: Option<BoolExp>, db: Db)
    ensures Matching(Rows(db, t), outer, filter, db) == Sift(Visible(db, t, filter), JoinedTo(outer))
  {
    var rows := Rows(db, t);
    var passes, both := (r: Row) => Passes(filter, db, r), (r: Row) => Selected(outer, filter, db, r);
    KeepIsSift(rows, seq(|rows|, i requires 0 <= i < |rows| => Selected(outer, filter, db, rows[i])), both);
    KeepIsSift(rows, seq(|rows|, i requires 0 <= i < |rows| => Selected(NoOuter, filter, db, rows[i])), passes);
    SiftTwice(rows, passes, JoinedTo(outer), both);
  }

  lemma OrderKeySame(target: OrderTarget, p: Pair, row: Row)
    requires Setting(p) && ConfinedTarget(target, p.access)
    ensures OrderKey(target, row, Db(p.t1, p.eng)) == OrderKey(target, row, Db(p.t2, p.eng))
  {
    match target
    case ByColumn(_) =>
    case ByRelated(t, join, _, filter) => MatchingSame(t, Outer(join, row), filter, p);
    case ByAggregate(t, join, _, _, filter) => MatchingSame(t, Outer(join, row), filter, p);
  }

  lemma OrderedSame(rows: seq<Row>, orderBy: seq<OrderBy>, p: Pair)
    requires Setting(p) && forall i :: 0 <= i < |orderBy| ==> ConfinedTarget(orderBy[i].target, p.access)
    ensures Ordered(rows, orderBy, Db(p.t1, p.eng)) == Ordered(rows, orderBy, Db(p.t2, p.eng))
  {
    forall r: Row ensures OrderKeys(orderBy, r, Db(p.t1, p.eng)) == OrderKeys(orderBy, r, Db(p.t2, p.eng)) {
      forall i | 0 <= i < |orderBy|
        ensures OrderKey(orderBy[i].target, r, Db(p.t1, p.eng)) == OrderKey(orderBy[i].target, r, Db(p.t2, p.eng))
      {
        OrderKeySame(orderBy[i].target, p, r);
      }
    }
    assert seq(|rows|, i requires 0 <= i < |rows| => OrderKeys(orderBy, rows[i], Db(p.t1, p.eng))) ==
           seq(|rows|, i requires 0 <= i < |rows| => OrderKeys(orderBy, rows[i], Db(p.t2, p.eng)));
  }

  /** The planner confines every ordering it accepts. */
  lemma {:induction false} OrderConfined(ctx: TableCtx, kind: Kind, args: Args, p: Pair)
    requires IsAccess(p.access, p.md, p.s)
    ensures
      var order := OrderAsked(ctx, kind, args, First(p));
      order == OrderAsked(ctx, kind, args, Second(p)) &&
      forall i :: 0 <= i < |order| ==> ConfinedTarget(order[i].target, p.access)
  {
    if !kind.ByPk? && args.orderBy.Some? && ParseOrderBy(args.orderBy.value, ctx, p.md, p.s).Ok? {
      OrderByPlanned(args.orderBy.value, ctx, p.md, p.s);
      var order := OrderAsked(ctx, kind, args, First(p));
      forall i | 0 <= i < |order| ensures ConfinedTarget(order[i].target, p.access) {
        PlannedIsConfined(order[i].target, ctx, p);
      }
    }
  }

  lemma {:induction false} PlannedIsConfined(target: OrderTarget, ctx: TableCtx, p: Pair)
    requires IsAccess(p.access, p.md, p.s) && Planned(target, ctx, p.md, p.s)
    ensures ConfinedTarget(target, p.access)
  {
    if !target.ByColumn? {
      assert p.access(target.table) == AccessOf(p.md, p.s, target.table);
    }
  }

  lemma SeenRowsSame(ctx: TableCtx, kind: Kind, args: Args, outer: Outer, p: Pair)
    requires Setting(p) && Reached(ctx, p) && ConfinedArgs(kind, args, ctx, p)
    ensures SeenRows(ctx, kind, args, outer, First(p)) == SeenRows(ctx, kind, args, outer, Second(p))
  {
    IncludedSame(ctx, kind, args, outer, p);
    if !kind.ByPk? {
      OrderConfined(ctx, kind, args, p);
      OrderedSame(IncludedRows(ctx, kind, args, outer, First(p)), OrderAsked(ctx, kind, args, First(p)), p);
    }
  }

  lemma RelatedRowsSame(ctx: TableCtx, outer: Outer, p: Pair)
    requires Setting(p) && Reached(ctx, p) && outer.Outer?
    ensures RelatedRows(ctx, outer, First(p)) == RelatedRows(ctx, outer, Second(p))
  {
    var w1, w2 := First(p), Second(p);
    var both1 := (r: Row) => Joined(outer.join, outer.row, r) && RowVisible(ctx, w1, r);
    var both2 := (r: Row) => Joined(outer.join, outer.row, r) && RowVisible(ctx, w2, r);
    SiftedSame(ctx, p, JoinedTo(outer), both1, both2);
    RelatedIsSift(ctx, outer, w1, both1);
    RelatedIsSift(ctx, outer, w2, both2);
  }

  // ----- selections -----

  /** Every select below is confined. */
  ghost predicate ConfinedSelect(kind: Kind, sel: Selection, ctx: TableCtx, p: Pair)
    decreases sel, 3
  {
    ConfinedArgs(kind, sel.args, ctx, p) &&
    if kind.Aggregation? then ConfinedEntries(sel.sub, ctx, p) else ConfinedFields(sel.sub, ctx, p)
  }

  ghost predicate ConfinedFields(sels: seq<Selection>, ctx: TableCtx, p: Pair)
    decreases sels, 2
  {
    forall i :: 0 <= i < |sels| ==> ConfinedSelection(sels[i], ctx, p)
  }

  ghost predicate ConfinedEntries(sels: seq<Selection>, ctx: TableCtx, p: Pair)
    decreases sels, 2
  {
    forall i :: 0 <= i < |sels| ==> ConfinedEntry(sels[i], ctx, p)
  }

  ghost predicate ConfinedEntry(sel: Selection, ctx: TableCtx, p: Pair)
    decreases sel, 4
  {
    sel.name == "nodes" ==> ConfinedFields(sel.sub, ctx, p)
  }

  ghost predicate ConfinedSelection(sel: Selection, ctx: TableCtx, p: Pair)
    decreases sel, 4
  {
    if sel.name == "__typename" || ColumnAllowed(ctx, sel.name) then true
    else if FindRel(ctx.entry.objectRels, sel.name).Some? then
      var target := FindRel(ctx.entry.objectRels, sel.name).value.target;
      target.Some? && TableCtxOf(p.md, target.value.0, p.s).Some? ==>
        ConfinedFields(sel.sub, TableCtxOf(p.md, target.value.0, p.s).value, p)
    else
      var (base, aggregate) := ArrayRel(ctx.entry, sel.name);
      var rel := FindRel(ctx.entry.arrayRels, base);
      rel.Some? && rel.value.target.Some? && TableCtxOf(p.md, rel.value.target.value.0, p.s).Some? ==>
        ConfinedSelect(if aggregate then Aggregation else List, sel, TableCtxOf(p.md, rel.value.target.value.0, p.s).value, p)
  }

  lemma {:induction false} FieldSame(sel: Selection, ctx: TableCtx, p: Pair, row: Row)
    requires Setting(p) && Reached(ctx, p) && PlanField(sel, ctx, p.md, p.s).Ok? && ConfinedSelection(sel, ctx, p)
    ensures SeeField(sel, ctx, First(p), row) == SeeField(sel, ctx, Second(p), row)
    decreases sel, 10
  {
    if sel.name == "__typename" {
    } else if ColumnAllowed(ctx, sel.name) {
      assert LocalCtx(ctx, p.md, p.s);
      ShownCellSame(ctx, sel.name, p, row);
    } else if FindRel(ctx.entry.objectRels, sel.name).Some? {
      var target := FindRel(ctx.entry.objectRels, sel.name).value.target.value;
      ObjectSame(sel, TableCtxOf(p.md, target.0, p.s).value, Outer(target.1, row), p);
    } else {
      var (base, aggregate) := ArrayRel(ctx.entry, sel.name);
      var target := FindRel(ctx.entry.arrayRels, base).value.target.value;
      SelectSame(TableCtxOf(p.md, target.0, p.s).value, if aggregate then Aggregation else List, sel, Outer(target.1, row), p);
    }
  }

  lemma {:induction false} ObjectSame(sel: Selection, remote: TableCtx, outer: Outer, p: Pair)
    requires Setting(p) && TableCtxOf(p.md, remote.table, p.s) == Some(remote) && outer.Outer?
    requires PlanObject(remote, sel, p.md, p.s).Ok? && ConfinedFields(sel.sub, remote, p)
    ensures
      var rows := RelatedRows(remote, outer, First(p));
      rows == RelatedRows(remote, outer, Second(p)) &&
      (rows != [] ==> SeeRow(sel.sub, remote, First(p), rows[0]) == SeeRow(sel.sub, remote, Second(p), rows[0]))
    decreases sel, 9
  {
    RelatedRowsSame(remote, outer, p);
    var rows := RelatedRows(remote, outer, First(p));
    if rows != [] {
      RowSame(sel.sub, remote, p, rows[0]);
    }
  }

  lemma {:induction false} RowSame(sels: seq<Selection>, ctx: TableCtx, p: Pair, row: Row)
    requires Setting(p) && Reached(ctx, p) && PlanFields(sels, ctx, p.md, p.s).Ok? && ConfinedFields(sels, ctx, p)
    ensures SeeRow(sels, ctx, First(p), row) == SeeRow(sels, ctx, Second(p), row)
    decreases sels, 5
  {
    var a, b := SeePairs(sels, ctx, First(p), row), SeePairs(sels, ctx, Second(p), row);
    forall i | 0 <= i < |sels| ensures a[i] == b[i] {
      PlanFieldAt(sels, i, ctx, First(p));
      FieldSame(sels[i], ctx, p, row);
    }
    assert a == b;
  }

  lemma {:induction false} RowListSame(sels: seq<Selection>, ctx: TableCtx, p: Pair, rows: seq<Row>)
    requires Setting(p) && Reached(ctx, p) && PlanFields(sels, ctx, p.md, p.s).Ok? && ConfinedFields(sels, ctx, p)
    ensures SeeRowList(sels, ctx, First(p), rows) == SeeRowList(sels, ctx, Second(p), rows)
    decreases sels, 6
  {
    forall i | 0 <= i < |rows| {
      RowSame(sels, ctx, p, rows[i]);
    }
  }

  lemma AggregateSame(sel: Selection, ctx: TableCtx, p: Pair, rows: seq<Row>)
    requires LocalCtx(ctx, p.md, p.s)
    ensures SeeAggregate(sel, ctx, First(p), rows) == SeeAggregate(sel, ctx, Second(p), rows)
  {
    forall column: string, r: Row ensures ShownCell(ctx, column, First(p), r) == ShownCell(ctx, column, Second(p), r) {
      ShownCellSame(ctx, column, p, r);
    }
    if sel.name == "count" {
      forall i | 0 <= i < |rows|
        ensures CountedTuple(ctx, sel.args.columns, First(p), rows[i]) == CountedTuple(ctx, sel.args.columns, Second(p), rows[i])
      {
      }
      assert CountedTuples(ctx, sel.args.columns, First(p), rows) == CountedTuples(ctx, sel.args.columns, Second(p), rows);
    } else {
      forall i | 0 <= i < |sel.sub|
        ensures ShownCells(ctx, sel.sub[i].name, First(p), rows) == ShownCells(ctx, sel.sub[i].name, Second(p), rows)
      {
      }
    }
  }

  lemma {:induction false} EntrySame(sel: Selection, ctx: TableCtx, p: Pair, rows: seq<Row>)
    requires Setting(p) && Reached(ctx, p) && PlanEntry(sel, ctx, p.md, p.s).Ok? && ConfinedEntry(sel, ctx, p)
    ensures SeeEntry(sel, ctx, First(p), rows) == SeeEntry(sel, ctx, Second(p), rows)
    decreases sel, 10
  {
    if sel.name == "aggregate" {
      assert LocalCtx(ctx, p.md, p.s);
      forall i | 0 <= i < |sel.sub| ensures SeeAggregate(sel.sub[i], ctx, First(p), rows) == SeeAggregate(sel.sub[i], ctx, Second(p), rows) {
        AggregateSame(sel.sub[i], ctx, p, rows);
      }
    } else if sel.name == "nodes" {
      var cap := PermLimit(ctx.perms);
      RowListSame(sel.sub, ctx, p, if cap.Some? && cap.value <= |rows| then rows[..cap.value] else rows);
    }
  }

  lemma {:induction false} EntriesSame(sels: seq<Selection>, ctx: TableCtx, p: Pair, rows: seq<Row>)
    requires Setting(p) && Reached(ctx, p) && PlanEntries(sels, ctx, p.md, p.s).Ok? && ConfinedEntries(sels, ctx, p)
    ensures SeeEntries(sels, ctx, First(p), rows) == SeeEntries(sels, ctx, Second(p), rows)
    decreases sels, 7
  {
    var a, b := SeeEntries(sels, ctx, First(p), rows), SeeEntries(sels, ctx, Second(p), rows);
    forall i | 0 <= i < |sels| ensures a[i] == b[i] {
      PlanEntryAt(sels, i, ctx, First(p));
      EntrySame(sels[i], ctx, p, rows);
    }
    assert a == b;
  }

  /** Main result: a confined selection shows the role the same on both
      databases. */
  lemma {:induction false} SelectSame(ctx: TableCtx, kind: Kind, sel: Selection, outer: Outer, p: Pair)
    requires Setting(p) && TableCtxOf(p.md, ctx.table, p.s) == Some(ctx)
    requires BuildSelect(ctx, kind, sel, p.md, p.s).Ok? && ConfinedSelect(kind, sel, ctx, p)
    ensures SeeSelect(ctx, kind, sel, outer, First(p)) == SeeSelect(ctx, kind, sel, outer, Second(p))
    decreases sel, 8
  {
    SeenRowsSame(ctx, kind, sel.args, outer, p);
    var rows := SeenRows(ctx, kind, sel.args, outer, First(p));
    match kind
    case List => RowListSame(sel.sub, ctx, p, rows);
    case ByPk =>
      if rows != [] {
        RowSame(sel.sub, ctx, p, rows[0]);
      }
    case Aggregation => EntriesSame(sel.sub, ctx, p, rows);
  }
}
