/** Permission filters that refer to the root row (`["$", column]`), reached
    through a relationship of a user's filter: when they are read as they are on
    the related table itself, and when they are not. */
module RootedFilters {
  import opened Values
  import opened Database
  import opened Ir
  import opened Planner
  import opened Meaning
  import opened FilterJson
  import RoleView

  /** No root comparison, except below `_exists`, which starts a root of its own. */
  predicate RootFree(e: BoolExp) {
    match e
    case And(es) => forall i :: 0 <= i < |es| ==> RootFree(es[i])
    case Or(es) => forall i :: 0 <= i < |es| ==> RootFree(es[i])
    case Not(x) => RootFree(x)
    case Compare(_, _, op) => !(op.Column? && op.fromRoot)
    case ComputedCompare(_, _, _, op) => !(op.Column? && op.fromRoot)
    case Relationship(_, _, p) => RootFree(p)
    case RowFunctionExists(_, _, p) => RootFree(p)
    case Exists(_, _) => true
  }

  lemma {:induction false} RootIrrelevant(e: BoolExp, db: Db, row: Row, root1: Row, root2: Row)
    requires RootFree(e)
    ensures Holds(e, db, row, root1) == Holds(e, db, row, root2)
    decreases e, 0
  {
    match e
    case And(es) =>
      forall i | 0 <= i < |es| { RootIrrelevant(es[i], db, row, root1, root2); }
    case Or(es) =>
      forall i | 0 <= i < |es| { RootIrrelevant(es[i], db, row, root1, root2); }
    case Not(x) => RootIrrelevant(x, db, row, root1, root2);
    case Compare(_, _, _) =>
    case ComputedCompare(_, _, _, _) =>
    case Relationship(t, join, p) => RelatedIrrelevant(p, join, row, Rows(db, t), db, root1, root2);
    case RowFunctionExists(fn, args, p) =>
      RelatedIrrelevant(p, [], row, db.engine.rowFn(fn, RowArgs(db.engine, args, row)), db, root1, root2);
    case Exists(_, _) =>
  }

  lemma {:induction false} RelatedIrrelevant(p: BoolExp, join: Join, local: Row, rows: seq<Row>, db: Db, root1: Row, root2: Row)
    requires RootFree(p)
    ensures SomeRelated(p, join, local, rows, db, root1) == SomeRelated(p, join, local, rows, db, root2)
    decreases p, 1
  {
    forall i | 0 <= i < |rows| { RootIrrelevant(p, db, rows[i], root1, root2); }
  }

  /** A key of the user's filter that is read as a relationship to `remote`. */
  ghost predicate Traverses(key: string, t: Table, join: Join, remote: TableCtx, ctx: TableCtx, md: Metadata, s: Session) {
    PlainKey(key) && !(key in ctx.entry.columns && ColumnAllowed(ctx, key)) &&
    RelTarget(ctx.entry, key) == Some((t, join)) && TableCtxOf(md, t, s) == Some(remote)
  }

  /** Some joined row, visible on its own, satisfies the inner filter. */
  ghost predicate SomeVisibleRelated(inner: BoolExp, t: Table, join: Join, remote: TableCtx, w: RoleView.World, row: Row, root: Row) {
    var rows := Rows(w.db, t);
    exists i :: 0 <= i < |rows| && Joined(join, row, rows[i]) && RoleView.RowVisible(remote, w, rows[i]) &&
      Holds(inner, w.db, rows[i], root).True?
  }

  lemma RelatedRowTrue(p: BoolExp, filter: Option<BoolExp>, e: BoolExp, remote: TableCtx, w: RoleView.World, r: Row, root: Row)
    requires remote.perms != [] && CombinedFilter(remote.perms, remote, w.md, w.s) == Ok(filter)
    requires filter.Some? ==> RootFree(filter.value)
    requires e == if filter.None? then p else And([p, filter.value])
    ensures Holds(e, w.db, r, root).True? <==> Holds(p, w.db, r, root).True? && RoleView.RowVisible(remote, w, r)
  {
    RoleView.CombinedFilterMeaning(remote.perms, remote, w, r);
    if filter.Some? {
      RootIrrelevant(filter.value, w.db, r, root, r);
      AndOfTwo(e, w.db, r, root);
    }
  }

  /** Main result: with a root-free filter on the related table, the planned
      relationship predicate holds exactly when some joined row that the role
      sees on its own satisfies the inner filter. */
  lemma PlannedRelationship(key: string, sub: Value, t: Table, join: Join, remote: TableCtx, ctx: TableCtx, w: RoleView.World,
    row: Row, root: Row)
    requires Traverses(key, t, join, remote, ctx, w.md, w.s)
    requires Conjunct((key, sub), ctx, w.md, w.s, false).Ok?
    requires
      var filter := CombinedFilter(remote.perms, remote, w.md, w.s);
      filter.Ok? && filter.value.Some? ==> RootFree(filter.value.value)
    ensures
      var inner := ParseBool(sub, remote, w.md, w.s, false);
      inner.Ok? &&
      Holds(Conjunct((key, sub), ctx, w.md, w.s, false).value, w.db, row, root) ==
      Truth(SomeVisibleRelated(inner.value, t, join, remote, w, row, root))
  {
    var inner := ParseBool(sub, remote, w.md, w.s, false).value;
    var filter := CombinedFilter(remote.perms, remote, w.md, w.s).value;
    var e := if filter.None? then inner else And([inner, filter.value]);
    assert Conjunct((key, sub), ctx, w.md, w.s, false) == Ok(Relationship(t, join, e));
    var rows := Rows(w.db, t);
    forall i | 0 <= i < |rows|
      ensures Holds(e, w.db, rows[i], root).True? <==>
              Holds(inner, w.db, rows[i], root).True? && RoleView.RowVisible(remote, w, rows[i])
    {
      RelatedRowTrue(inner, filter, e, remote, w, rows[i], root);
    }
  }

  // ----- the condition is needed -----

  /** The filter `{a: {_ceq: ["$", b]}}` of a related table. */
  function RootedJson(a: string, b: string): Value {
    Obj([(a, CeqPath("$", b))])
  }

  lemma RootedParses(a: string, b: string, remote: TableCtx, md: Metadata, s: Session)
    requires PlainKey(a) && a in remote.entry.columns
    ensures ParseBool(RootedJson(a, b), remote.(perms := []), md, s, true) ==
            Ok(Compare(a, remote.entry.columns[a], Column(Eq, b, true)))
  {
    SingleConjunct(a, CeqPath("$", b), remote.(perms := []), md, s, true);
    CeqParses("$", b, remote.(perms := []), md, s, true);
  }

  lemma RootedFilterIs(a: string, b: string, remote: TableCtx, md: Metadata, s: Session)
    requires PlainKey(a) && a in remote.entry.columns && |remote.perms| == 1 && remote.perms[0].filter == RootedJson(a, b)
    ensures CombinedFilter(remote.perms, remote, md, s) == Ok(Some(Compare(a, remote.entry.columns[a], Column(Eq, b, true))))
  {
    RootedParses(a, b, remote, md, s);
    assert remote.perms[..0] == [];
    assert FilterParts(remote.perms[..0], remote, md, s) == Ok(Some([]));
    var f := Compare(a, remote.entry.columns[a], Column(Eq, b, true));
    assert [] + [f] == [f];
  }

  lemma EmptyFilterParses(remote: TableCtx, md: Metadata, s: Session)
    ensures ParseBool(Obj([]), remote, md, s, false) == Ok(And([]))
  {
  }

  /** With a filter that compares with the root, a user's `{rel: {}}` finds a
      related row that the role cannot see: the filter reads `b` of the outer
      row instead of the row's own. */
  lemma RootedFilterReadsOuterRow(key: string, a: string, b: string, t: Table, join: Join, remote: TableCtx, ctx: TableCtx,
    w: RoleView.World, r: Row, outer: Row)
    requires Traverses(key, t, join, remote, ctx, w.md, w.s) && w.db.tables == map[t := [r]]
    requires PlainKey(a) && a in remote.entry.columns && |remote.perms| == 1 && remote.perms[0].filter == RootedJson(a, b)
    requires Joined(join, outer, r) && !Get(r, a).Null? && Get(r, a) == Get(outer, b) && Get(r, a) != Get(r, b)
    ensures
      var e := ParseBool(Obj([(key, Obj([]))]), ctx, w.md, w.s, false);
      e.Ok? && Holds(e.value, w.db, outer, outer).True? && !RoleView.RowVisible(remote, w, r)
  {
    var f := Compare(a, remote.entry.columns[a], Column(Eq, b, true));
    RootedFilterIs(a, b, remote, w.md, w.s);
    RoleView.CombinedFilterMeaning(remote.perms, remote, w, r);
    RootedPlan(key, t, join, remote, ctx, w.md, w.s, f);
    RootedTruth(f, a, b, join, w.db, r, outer);
    assert Rows(w.db, t) == [r];
  }

  lemma {:induction false} RootedPlan(key: string, t: Table, join: Join, remote: TableCtx, ctx: TableCtx, md: Metadata, s: Session, f: BoolExp)
    requires Traverses(key, t, join, remote, ctx, md, s) && CombinedFilter(remote.perms, remote, md, s) == Ok(Some(f))
    ensures ParseBool(Obj([(key, Obj([]))]), ctx, md, s, false) == Ok(Relationship(t, join, And([And([]), f])))
  {
    EmptyFilterParses(remote, md, s);
    SingleConjunct(key, Obj([]), ctx, md, s, false);
  }

  lemma {:induction false} RootedTruth(f: BoolExp, a: string, b: string, join: Join, db: Db, r: Row, outer: Row)
    requires f.Compare? && f.column == a && f.op == Column(Eq, b, true)
    requires Joined(join, outer, r) && !Get(r, a).Null? && Get(r, a) == Get(outer, b) && Get(r, a) != Get(r, b)
    ensures SomeRelated(And([And([]), f]), join, outer, [r], db, outer) && !Holds(f, db, r, r).True?
  {
    var p := And([And([]), f]);
    AndOfTwo(p, db, r, outer);
    assert Holds(f, db, r, outer).True? && Holds(And([]), db, r, outer).True?;
    assert [r][0] == r;
  }
}
