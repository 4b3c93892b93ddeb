/** What a role sees. The specification below knows nothing of guards, merged
    predicates or limits inside queries: a row is visible when some permission
    of the role passes it, and a cell is shown when some permission granting
    its column passes the row. The plan, read by the IR semantics, gives
    exactly that on every database. */
module RoleView {
  import opened Values
  import opened Database
  import opened Ir
  import opened Planner
  import opened OrderPlan
  import opened SelectPlan
  import opened Selections
  import opened Meaning
  import opened Conjunctions

  /** How `count(columns: ..)` reads a cell: as it is stored, which is what the
      planner does, or as the role is shown it, which is what every other
      aggregate does. */
  datatype CountReading = Stored | Shown

  datatype World = World(md: Metadata, s: Session, db: Db, stringify: bool, counts: CountReading)

  // ----- the specification -----

  ghost predicate PassesPermission(p: SelectPermission, ctx: TableCtx, w: World, row: Row) {
    Unrestricted(p) ||
    var f := ParseBool(p.filter, ctx.(perms := []), w.md, w.s, true);
    f.Ok? && Holds(f.value, w.db, row, row).True?
  }

  ghost predicate SomePasses(perms: seq<SelectPermission>, ctx: TableCtx, w: World, row: Row) {
    exists i :: 0 <= i < |perms| && PassesPermission(perms[i], ctx, w, row)
  }

  ghost predicate RowVisible(ctx: TableCtx, w: World, row: Row) {
    SomePasses(ctx.perms, ctx, w, row)
  }

  ghost predicate CellShown(ctx: TableCtx, column: string, w: World, row: Row) {
    exists i :: 0 <= i < |ctx.perms| && Grants(ctx.perms[i], column) && PassesPermission(ctx.perms[i], ctx, w, row)
  }

  ghost function ShownCell(ctx: TableCtx, column: string, w: World, row: Row): Value {
    if CellShown(ctx, column, w, row) then Get(row, column) else Null
  }

  ghost function ShownCells(ctx: TableCtx, column: string, w: World, rows: seq<Row>): (vs: seq<Value>)
    ensures |vs| == |rows| && forall i :: 0 <= i < |rows| ==> vs[i] == ShownCell(ctx, column, w, rows[i])
  {
    seq(|rows|, i requires 0 <= i < |rows| => ShownCell(ctx, column, w, rows[i]))
  }

  /** The user's own filter is TRUE on the row. */
  ghost predicate Wanted(ctx: TableCtx, kind: Kind, args: Args, w: World, row: Row) {
    var user := UserWhere(ctx, kind, args, w.md, w.s);
    user.Ok? && forall i :: 0 <= i < |user.value| ==> Holds(user.value[i], w.db, row, row).True?
  }

  ghost predicate Included(ctx: TableCtx, kind: Kind, args: Args, outer: Outer, w: World, row: Row) {
    (outer.NoOuter? || Joined(outer.join, outer.row, row)) && Wanted(ctx, kind, args, w, row) && RowVisible(ctx, w, row)
  }

  ghost function IncludedRows(ctx: TableCtx, kind: Kind, args: Args, outer: Outer, w: World): seq<Row> {
    var rows := Rows(w.db, ctx.table);
    Keep(rows, seq(|rows|, i requires 0 <= i < |rows| => Included(ctx, kind, args, outer, w, rows[i])))
  }

  /** The ordering the user asked for. */
  function OrderAsked(ctx: TableCtx, kind: Kind, args: Args, w: World): seq<OrderBy> {
    var order := UserOrder(ctx, kind, args, w.md, w.s);
    if order.Ok? then order.value else []
  }

  /** The rows of a select: included, ordered, cut. Only plain lists are cut by
      the permission limit; `_by_pk` takes neither order nor limits. */
  ghost function SeenRows(ctx: TableCtx, kind: Kind, args: Args, outer: Outer, w: World): seq<Row> {
    var rows := IncludedRows(ctx, kind, args, outer, w);
    match kind
    case ByPk => rows
    case List => Slice(Ordered(rows, OrderAsked(ctx, kind, args, w), w.db), Smaller(args.limit, PermLimit(ctx.perms)), args.offset)
    case Aggregation => Slice(Ordered(rows, OrderAsked(ctx, kind, args, w), w.db), args.limit, args.offset)
  }

  /** The visible rows behind an object relationship, in table order. */
  ghost function RelatedRows(ctx: TableCtx, outer: Outer, w: World): seq<Row>
    requires outer.Outer?
  {
    var rows := Rows(w.db, ctx.table);
    Keep(rows, seq(|rows|, i requires 0 <= i < |rows| => Joined(outer.join, outer.row, rows[i]) && RowVisible(ctx, w, rows[i])))
  }

  ghost function SeeField(sel: Selection, ctx: TableCtx, w: World, row: Row): Value
    decreases sel, 4
  {
    if sel.name == "__typename" then Text(ctx.entry.typeName)
    else if ColumnAllowed(ctx, sel.name) then
      Render(w.db.engine, OutputRendering(ctx.entry.columns[sel.name], w.stringify), ShownCell(ctx, sel.name, w, row))
    else if FindRel(ctx.entry.objectRels, sel.name).Some? then
      var target := FindRel(ctx.entry.objectRels, sel.name).value.target;
      if target.None? || TableCtxOf(w.md, target.value.0, w.s).None? then Error
      else
        var remote := TableCtxOf(w.md, target.value.0, w.s).value;
        var rows := RelatedRows(remote, Outer(target.value.1, row), w);
        if rows == [] then Null else SeeRow(sel.sub, remote, w, rows[0])
    else
      var (base, aggregate) := ArrayRel(ctx.entry, sel.name);
      var rel := FindRel(ctx.entry.arrayRels, base);
      if rel.None? || rel.value.target.None? || TableCtxOf(w.md, rel.value.target.value.0, w.s).None? then Error
      else
        var target := rel.value.target.value;
        SeeSelect(TableCtxOf(w.md, target.0, w.s).value, if aggregate then Aggregation else List, sel, Outer(target.1, row), w)
  }

  ghost function SeeRow(sels: seq<Selection>, ctx: TableCtx, w: World, row: Row): Value
    decreases sels, 3
  {
    Obj(SeePairs(sels, ctx, w, row))
  }

  ghost function SeePairs(sels: seq<Selection>, ctx: TableCtx, w: World, row: Row): (kvs: seq<(string, Value)>)
    ensures |kvs| == |sels| && forall i :: 0 <= i < |sels| ==> kvs[i] == (sels[i].alias, SeeField(sels[i], ctx, w, row))
    decreases sels, 2
  {
    seq(|sels|, i requires 0 <= i < |sels| => (sels[i].alias, SeeField(sels[i], ctx, w, row)))
  }

  ghost function SeeRowList(sels: seq<Selection>, ctx: TableCtx, w: World, rows: seq<Row>): (vs: seq<Value>)
    ensures |vs| == |rows| && forall i :: 0 <= i < |rows| ==> vs[i] == SeeRow(sels, ctx, w, rows[i])
    decreases sels, 4
  {
    seq(|rows|, i requires 0 <= i < |rows| => SeeRow(sels, ctx, w, rows[i]))
  }

  ghost function SeeSelect(ctx: TableCtx, kind: Kind, sel: Selection, outer: Outer, w: World): Value
    decreases sel, 3
  {
    var rows := SeenRows(ctx, kind, sel.args, outer, w);
    match kind
    case ByPk => if rows == [] then Null else SeeRow(sel.sub, ctx, w, rows[0])
    case List => Arr(SeeRowList(sel.sub, ctx, w, rows))
    case Aggregation => Obj(SeeEntries(sel.sub, ctx, w, rows))
  }

  ghost function SeeEntries(sels: seq<Selection>, ctx: TableCtx, w: World, rows: seq<Row>): (kvs: seq<(string, Value)>)
    ensures |kvs| == |sels| && forall i :: 0 <= i < |sels| ==> kvs[i] == (sels[i].alias, SeeEntry(sels[i], ctx, w, rows))
    decreases sels, 2
  {
    seq(|sels|, i requires 0 <= i < |sels| => (sels[i].alias, SeeEntry(sels[i], ctx, w, rows)))
  }

  /** `nodes` lists as many of the aggregated rows as the permission limit
      admits; the aggregates range over all of them. */
  ghost function SeeEntry(sel: Selection, ctx: TableCtx, w: World, rows: seq<Row>): Value
    decreases sel, 4
  {
    if sel.name == "__typename" then Text(ctx.entry.typeName + Suffix())
    else if sel.name == "aggregate" then
      Obj(seq(|sel.sub|, i requires 0 <= i < |sel.sub| => (sel.sub[i].alias, SeeAggregate(sel.sub[i], ctx, w, rows))))
    else if sel.name == "nodes" then
      var cap := PermLimit(ctx.perms);
      Arr(SeeRowList(sel.sub, ctx, w, if cap.Some? && cap.value <= |rows| then rows[..cap.value] else rows))
    else Error
  }

  ghost function CountedCell(ctx: TableCtx, column: string, w: World, row: Row): Value {
    if w.counts.Stored? then Get(row, column) else ShownCell(ctx, column, w, row)
  }

  ghost function CountedTuple(ctx: TableCtx, columns: seq<string>, w: World, row: Row): (vs: seq<Value>)
    ensures |vs| == |columns| && forall k :: 0 <= k < |columns| ==> vs[k] == CountedCell(ctx, columns[k], w, row)
  {
    seq(|columns|, k requires 0 <= k < |columns| => CountedCell(ctx, columns[k], w, row))
  }

  ghost function CountedTuples(ctx: TableCtx, columns: seq<string>, w: World, rows: seq<Row>): (ts: seq<seq<Value>>)
    ensures |ts| == |rows| && forall i :: 0 <= i < |rows| ==> ts[i] == CountedTuple(ctx, columns, w, rows[i])
  {
    seq(|rows|, i requires 0 <= i < |rows| => CountedTuple(ctx, columns, w, rows[i]))
  }

  ghost function SeeCount(ctx: TableCtx, distinct: bool, columns: seq<string>, w: World, rows: seq<Row>): Value {
    Num(if columns == [] then |rows| else CountTuples(distinct, CountedTuples(ctx, columns, w, rows)))
  }

  /** Column aggregates range over the shown cells. */
  ghost function SeeAggregate(sel: Selection, ctx: TableCtx, w: World, rows: seq<Row>): Value {
    if sel.name == "count" then SeeCount(ctx, sel.args.distinct, sel.args.columns, w, rows)
    else Obj(seq(|sel.sub|, i requires 0 <= i < |sel.sub| =>
      (sel.sub[i].alias, w.db.engine.aggregate(sel.name, ShownCells(ctx, sel.sub[i].name, w, rows)))))
  }

  // ----- combined filters -----

  lemma {:induction false} PartsMeaning(perms: seq<SelectPermission>, ctx: TableCtx, w: World, row: Row)
    requires FilterParts(perms, ctx, w.md, w.s).Ok?
    ensures
      var parts := FilterParts(perms, ctx, w.md, w.s).value;
      if parts.None? then SomePasses(perms, ctx, w, row)
      else |parts.value| == |perms| && forall i :: 0 <= i < |perms| ==>
        (PassesPermission(perms[i], ctx, w, row) <==> Holds(parts.value[i], w.db, row, row).True?)
  {
    if perms != [] {
      var n := |perms| - 1;
      var init := FilterParts(perms[..n], ctx, w.md, w.s);
      PartsMeaning(perms[..n], ctx, w, row);
      if init.value.None? {
        var i :| 0 <= i < n && PassesPermission(perms[..n][i], ctx, w, row);
        assert PassesPermission(perms[i], ctx, w, row);
      } else if Unrestricted(perms[n]) {
        assert PassesPermission(perms[n], ctx, w, row);
      } else {
        assert forall i :: 0 <= i < n ==> perms[..n][i] == perms[i];
      }
    }
  }

  /** The combined filter passes a row iff some permission does, whichever
      shortcut was taken. */
  lemma CombinedFilterMeaning(perms: seq<SelectPermission>, ctx: TableCtx, w: World, row: Row)
    requires perms != [] && CombinedFilter(perms, ctx, w.md, w.s).Ok?
    ensures Passes(CombinedFilter(perms, ctx, w.md, w.s).value, w.db, row) <==> SomePasses(perms, ctx, w, row)
  {
    PartsMeaning(perms, ctx, w, row);
    var parts := FilterParts(perms, ctx, w.md, w.s).value;
    if parts.Some? {
      if |parts.value| != 1 {
        OrTrue(parts.value, w.db, row);
      }
    }
  }

  lemma OrTrue(es: seq<BoolExp>, db: Db, row: Row)
    ensures Holds(Or(es), db, row, row).True? <==> exists i :: 0 <= i < |es| && Holds(es[i], db, row, row).True?
  {
  }

  lemma {:induction false} GrantingMembers(perms: seq<SelectPermission>, column: string, p: SelectPermission)
    ensures p in Granting(perms, column) <==> p in perms && Grants(p, column)
    ensures |Granting(perms, column)| <= |perms|
    ensures |Granting(perms, column)| == |perms| ==> forall i :: 0 <= i < |perms| ==> Grants(perms[i], column)
  {
    if perms != [] {
      var n := |perms| - 1;
      GrantingMembers(perms[..n], column, p);
      assert perms == perms[..n] + [perms[n]];
    }
  }

  lemma SomeGrantingPasses(ctx: TableCtx, column: string, w: World, row: Row)
    ensures SomePasses(Granting(ctx.perms, column), ctx, w, row) <==> CellShown(ctx, column, w, row)
  {
    var g := Granting(ctx.perms, column);
    forall p ensures p in g <==> p in ctx.perms && Grants(p, column) {
      GrantingMembers(ctx.perms, column, p);
    }
    if SomePasses(g, ctx, w, row) {
      var i :| 0 <= i < |g| && PassesPermission(g[i], ctx, w, row);
      assert g[i] in g;
      var j :| 0 <= j < |ctx.perms| && ctx.perms[j] == g[i];
    }
    if CellShown(ctx, column, w, row) {
      var j :| 0 <= j < |ctx.perms| && Grants(ctx.perms[j], column) && PassesPermission(ctx.perms[j], ctx, w, row);
      assert ctx.perms[j] in g;
      var i :| 0 <= i < |g| && g[i] == ctx.perms[j];
    }
  }

  /** On a visible row the guard decides exactly which cells are shown. */
  lemma GuardMeaning(ctx: TableCtx, column: string, w: World, row: Row)
    requires ColumnAllowed(ctx, column) && ctx.perms != [] && Guard(ctx, column, w.md, w.s).Ok?
    requires RowVisible(ctx, w, row)
    ensures Passes(Guard(ctx, column, w.md, w.s).value, w.db, row) <==> CellShown(ctx, column, w, row)
  {
    var granting := Granting(ctx.perms, column);
    GrantingMembers(ctx.perms, column, ctx.perms[0]);
    SomeGrantingPasses(ctx, column, w, row);
    var k :| 0 <= k < |ctx.perms| && Grants(ctx.perms[k], column);
    GrantingMembers(ctx.perms, column, ctx.perms[k]);
    assert ctx.perms[k] in ctx.perms;
    if |ctx.perms| > 1 && |granting| < |ctx.perms| {
      CombinedFilterMeaning(granting, ctx, w, row);
    } else {
      var j :| 0 <= j < |ctx.perms| && PassesPermission(ctx.perms[j], ctx, w, row);
      assert Grants(ctx.perms[j], column);
    }
  }

  // ----- rows -----

  lemma SelectedIncluded(ctx: TableCtx, kind: Kind, args: Args, outer: Outer, w: World, row: Row, filter: Option<BoolExp>)
    requires ctx.perms != [] && UserWhere(ctx, kind, args, w.md, w.s).Ok? && CombinedFilter(ctx.perms, ctx, w.md, w.s).Ok?
    requires
      var f := CombinedFilter(ctx.perms, ctx, w.md, w.s).value;
      filter == Merge(UserWhere(ctx, kind, args, w.md, w.s).value + (if f.Some? then [f.value] else []))
    ensures Selected(outer, filter, w.db, row) <==> Included(ctx, kind, args, outer, w, row)
  {
    var user := UserWhere(ctx, kind, args, w.md, w.s).value;
    var f := CombinedFilter(ctx.perms, ctx, w.md, w.s).value;
    var extra := if f.Some? then [f.value] else [];
    var ps := user + extra;
    MergeMeaning(ps, w.db, row);
    CombinedFilterMeaning(ctx.perms, ctx, w, row);
    assert forall i :: 0 <= i < |user| ==> ps[i] == user[i];
    assert f.Some? ==> ps[|user|] == f.value;
    assert f.None? ==> ps == user;
  }

  lemma UnorderedRows(rows: seq<Row>, db: Db)
    ensures Ordered(rows, [], db) == rows
  {
    var keys := seq(|rows|, i requires 0 <= i < |rows| => OrderKeys([], rows[i], db));
    assert Specs([]) == [];
    SortWithoutKeys(db.engine, seq(|rows|, i requires 0 <= i < |rows| => Keyed(keys[i], rows[i])));
  }

  /** The planned rows are the specified ones. */
  lemma RowsSeen(ctx: TableCtx, kind: Kind, sel: Selection, outer: Outer, w: World, q: SelectQuery)
    requires ctx.perms != [] && BuildSelect(ctx, kind, sel, w.md, w.s) == Ok(q)
    ensures SelectRows(q, outer, w.db) == SeenRows(ctx, kind, sel.args, outer, w)
  {
    var rows := Rows(w.db, ctx.table);
    forall i | 0 <= i < |rows|
      ensures Selected(outer, q.filter, w.db, rows[i]) == Included(ctx, kind, sel.args, outer, w, rows[i])
    {
      SelectedIncluded(ctx, kind, sel.args, outer, w, rows[i], q.filter);
    }
    MatchingIncluded(rows, ctx, kind, sel.args, outer, w, q.filter);
    if kind.ByPk? {
      UnorderedRows(IncludedRows(ctx, kind, sel.args, outer, w), w.db);
    }
  }

  lemma MatchingIncluded(rows: seq<Row>, ctx: TableCtx, kind: Kind, args: Args, outer: Outer, w: World, filter: Option<BoolExp>)
    requires rows == Rows(w.db, ctx.table)
    requires forall i :: 0 <= i < |rows| ==>
      Selected(outer, filter, w.db, rows[i]) == Included(ctx, kind, args, outer, w, rows[i])
    ensures Matching(rows, outer, filter, w.db) == IncludedRows(ctx, kind, args, outer, w)
  {
    assert seq(|rows|, i requires 0 <= i < |rows| => Selected(outer, filter, w.db, rows[i])) ==
           seq(|rows|, i requires 0 <= i < |rows| => Included(ctx, kind, args, outer, w, rows[i]));
  }

  lemma OrderedMember(rows: seq<Row>, orderBy: seq<OrderBy>, db: Db, r: Row)
    requires r in Ordered(rows, orderBy, db)
    ensures r in rows
  {
    SortedRowsMember(db.engine, Specs(orderBy), rows, seq(|rows|, i requires 0 <= i < |rows| => OrderKeys(orderBy, rows[i], db)), r);
  }

  /** Every row a select returns is visible to the role. */
  lemma {:induction false} SeenRowsVisible(ctx: TableCtx, kind: Kind, args: Args, outer: Outer, w: World, r: Row)
    requires r in SeenRows(ctx, kind, args, outer, w)
    ensures RowVisible(ctx, w, r)
  {
    var included := IncludedRows(ctx, kind, args, outer, w);
    if !kind.ByPk? {
      var order := OrderAsked(ctx, kind, args, w);
      SliceMember(Ordered(included, order, w.db), if kind.List? then Smaller(args.limit, PermLimit(ctx.perms)) else args.limit, args.offset, r);
      OrderedMember(included, order, w.db, r);
    }
    IncludedVisible(ctx, kind, args, outer, w, r);
  }

  lemma {:induction false} SliceMember(rows: seq<Row>, limit: Option<nat>, offset: Option<nat>, r: Row)
    requires r in Slice(rows, limit, offset)
    ensures r in rows
  {
  }

  lemma {:induction false} IncludedVisible(ctx: TableCtx, kind: Kind, args: Args, outer: Outer, w: World, r: Row)
    requires r in IncludedRows(ctx, kind, args, outer, w)
    ensures RowVisible(ctx, w, r)
  {
    var rows := Rows(w.db, ctx.table);
    KeepMember(rows, seq(|rows|, i requires 0 <= i < |rows| => Included(ctx, kind, args, outer, w, rows[i])), r);
  }

  // ----- fields -----

  /** What the results below ask of every aggregate selection reached: it asks
      for `aggregate` or `nodes`, and, to count shown cells, it counts only
      columns that need no guard. */
  function SeenTest(w: World): AggregateTest {
    (sels, ctx) => HasEntry(sels) && (w.counts.Stored? || CountsUnguarded(sels, ctx, w.md, w.s))
  }

  lemma {:induction false} PlanFieldAt(sels: seq<Selection>, i: nat, ctx: TableCtx, w: World)
    requires PlanFields(sels, ctx, w.md, w.s).Ok? && i < |sels|
    ensures
      var fields := PlanFields(sels, ctx, w.md, w.s).value;
      |fields| == |sels| && PlanField(sels[i], ctx, w.md, w.s).Ok? &&
      fields[i] == OutputField(sels[i].alias, PlanField(sels[i], ctx, w.md, w.s).value)
  {
    var n := |sels| - 1;
    var init := PlanFields(sels[..n], ctx, w.md, w.s);
    if n > 0 {
      PlanFieldAt(sels[..n], if i < n then i else 0, ctx, w);
    }
  }

  lemma PlainFields(sels: seq<Selection>, ctx: TableCtx, w: World)
    requires PlanFields(sels, ctx, w.md, w.s).Ok?
    ensures
      var fields := PlanFields(sels, ctx, w.md, w.s).value;
      |fields| == |sels| && !IsAggregate(fields)
  {
    if sels != [] {
      PlanFieldAt(sels, 0, ctx, w);
    }
    forall i | 0 <= i < |sels| {
      PlanFieldAt(sels, i, ctx, w);
    }
  }

  lemma {:induction false} RowSeen(sels: seq<Selection>, ctx: TableCtx, w: World, row: Row)
    requires PlanFields(sels, ctx, w.md, w.s).Ok? && ctx.perms != [] && RowVisible(ctx, w, row)
    requires EveryField(sels, ctx, w.md, w.s, SeenTest(w))
    ensures RowJson(PlanFields(sels, ctx, w.md, w.s).value, row, w.db, w.stringify) == SeeRow(sels, ctx, w, row)
    decreases sels, 5
  {
    var fields := PlanFields(sels, ctx, w.md, w.s).value;
    PlainFields(sels, ctx, w);
    var got, want := RowPairs(fields, row, w.db, w.stringify), SeePairs(sels, ctx, w, row);
    forall i | 0 <= i < |sels| ensures got[i] == want[i] {
      PlanFieldAt(sels, i, ctx, w);
      FieldSeen(sels[i], ctx, w, row);
    }
    assert got == want;
  }

  lemma {:induction false} RowListSeen(sels: seq<Selection>, ctx: TableCtx, w: World, rows: seq<Row>)
    requires PlanFields(sels, ctx, w.md, w.s).Ok? && ctx.perms != []
    requires forall r :: r in rows ==> RowVisible(ctx, w, r)
    requires EveryField(sels, ctx, w.md, w.s, SeenTest(w))
    ensures RowJsons(PlanFields(sels, ctx, w.md, w.s).value, rows, w.db, w.stringify) == SeeRowList(sels, ctx, w, rows)
    decreases sels, 6
  {
    var fields := PlanFields(sels, ctx, w.md, w.s).value;
    forall i | 0 <= i < |rows|
      ensures RowJsons(fields, rows, w.db, w.stringify)[i] == SeeRowList(sels, ctx, w, rows)[i]
    {
      assert rows[i] in rows;
      RowSeen(sels, ctx, w, rows[i]);
    }
  }

  lemma {:induction false} FieldSeen(sel: Selection, ctx: TableCtx, w: World, row: Row)
    requires PlanField(sel, ctx, w.md, w.s).Ok? && ctx.perms != [] && RowVisible(ctx, w, row)
    requires BelowField(sel, ctx, w.md, w.s, SeenTest(w))
    ensures FieldJson(PlanField(sel, ctx, w.md, w.s).value, row, w.db, w.stringify) == SeeField(sel, ctx, w, row)
    decreases sel, 10
  {
    if sel.name == "__typename" {
    } else if ColumnAllowed(ctx, sel.name) {
      ColumnSeen(sel, ctx, w, row);
    } else if FindRel(ctx.entry.objectRels, sel.name).Some? {
      var target := FindRel(ctx.entry.objectRels, sel.name).value.target.value;
      ObjectSeen(TableCtxOf(w.md, target.0, w.s).value, sel, Outer(target.1, row), w);
    } else {
      ArraySeen(sel, ctx, w, row);
    }
  }

  lemma ColumnSeen(sel: Selection, ctx: TableCtx, w: World, row: Row)
    requires PlanField(sel, ctx, w.md, w.s).Ok? && ctx.perms != [] && RowVisible(ctx, w, row)
    requires sel.name != "__typename" && ColumnAllowed(ctx, sel.name)
    ensures FieldJson(PlanField(sel, ctx, w.md, w.s).value, row, w.db, w.stringify) == SeeField(sel, ctx, w, row)
  {
    GuardMeaning(ctx, sel.name, w, row);
  }

  lemma {:induction false} ArraySeen(sel: Selection, ctx: TableCtx, w: World, row: Row)
    requires PlanField(sel, ctx, w.md, w.s).Ok? && BelowField(sel, ctx, w.md, w.s, SeenTest(w))
    requires sel.name != "__typename" && !ColumnAllowed(ctx, sel.name) && FindRel(ctx.entry.objectRels, sel.name).None?
    ensures FieldJson(PlanField(sel, ctx, w.md, w.s).value, row, w.db, w.stringify) == SeeField(sel, ctx, w, row)
    decreases sel, 9
  {
    var (base, aggregate) := ArrayRel(ctx.entry, sel.name);
    var target := FindRel(ctx.entry.arrayRels, base).value.target.value;
    var remote := TableCtxOf(w.md, target.0, w.s).value;
    var kind := if aggregate then Aggregation else List;
    assert PlanField(sel, ctx, w.md, w.s).value == Related(BuildSelect(remote, kind, sel, w.md, w.s).value, target.1);
    SelectSeen(remote, kind, sel, Outer(target.1, row), w);
  }

  /** An object relationship shows the first related row the role may see. */
  lemma {:induction false} ObjectSeen(remote: TableCtx, sel: Selection, outer: Outer, w: World)
    requires PlanObject(remote, sel, w.md, w.s).Ok? && remote.perms != [] && outer.Outer?
    requires EveryField(sel.sub, remote, w.md, w.s, SeenTest(w))
    ensures
      var rows := RelatedRows(remote, outer, w);
      SelectJson(PlanObject(remote, sel, w.md, w.s).value, outer, w.db, w.stringify) ==
      if rows == [] then Null else SeeRow(sel.sub, remote, w, rows[0])
    decreases sel, 8
  {
    var q := PlanObject(remote, sel, w.md, w.s).value;
    RelatedRowsSeen(remote, sel, outer, w, q);
    PlainFields(sel.sub, remote, w);
    var rows := RelatedRows(remote, outer, w);
    if rows != [] {
      var all := Rows(w.db, remote.table);
      KeepMember(all, seq(|all|, i requires 0 <= i < |all| => Joined(outer.join, outer.row, all[i]) && RowVisible(remote, w, all[i])), rows[0]);
      RowSeen(sel.sub, remote, w, rows[0]);
    }
  }

  lemma RelatedRowsSeen(remote: TableCtx, sel: Selection, outer: Outer, w: World, q: SelectQuery)
    requires PlanObject(remote, sel, w.md, w.s) == Ok(q) && remote.perms != [] && outer.Outer?
    ensures SelectRows(q, outer, w.db) == RelatedRows(remote, outer, w)
  {
    var rows := Rows(w.db, remote.table);
    forall i | 0 <= i < |rows|
      ensures Selected(outer, q.filter, w.db, rows[i]) == (Joined(outer.join, outer.row, rows[i]) && RowVisible(remote, w, rows[i]))
    {
      CombinedFilterMeaning(remote.perms, remote, w, rows[i]);
    }
    assert seq(|rows|, i requires 0 <= i < |rows| => Selected(outer, q.filter, w.db, rows[i])) ==
           seq(|rows|, i requires 0 <= i < |rows| => Joined(outer.join, outer.row, rows[i]) && RowVisible(remote, w, rows[i]));
    UnorderedRows(RelatedRows(remote, outer, w), w.db);
  }

  // ----- selects -----

  /** Main result: a planned select, at any nesting depth, shows what the role
      may see. */
  lemma {:induction false} SelectSeen(ctx: TableCtx, kind: Kind, sel: Selection, outer: Outer, w: World)
    requires BuildSelect(ctx, kind, sel, w.md, w.s).Ok? && ctx.perms != []
    requires EverySelect(kind, sel.sub, ctx, w.md, w.s, SeenTest(w))
    ensures SelectJson(BuildSelect(ctx, kind, sel, w.md, w.s).value, outer, w.db, w.stringify) == SeeSelect(ctx, kind, sel, outer, w)
    decreases sel, 8
  {
    var q := BuildSelect(ctx, kind, sel, w.md, w.s).value;
    var rows := SeenRows(ctx, kind, sel.args, outer, w);
    RowsSeen(ctx, kind, sel, outer, w, q);
    forall r | r in rows ensures RowVisible(ctx, w, r) {
      SeenRowsVisible(ctx, kind, sel.args, outer, w, r);
    }
    match kind
    case List =>
      PlainFields(sel.sub, ctx, w);
      RowListSeen(sel.sub, ctx, w, rows);
    case ByPk =>
      PlainFields(sel.sub, ctx, w);
      if rows != [] {
        assert rows[0] in rows;
        RowSeen(sel.sub, ctx, w, rows[0]);
      }
    case Aggregation =>
      EntryCount(sel.sub, ctx, w);
      EntriesSeen(sel.sub, ctx, w, rows, q);
  }

  lemma {:induction false} PlanEntryAt(sels: seq<Selection>, i: nat, ctx: TableCtx, w: World)
    requires PlanEntries(sels, ctx, w.md, w.s).Ok? && i < |sels|
    ensures
      var fields := PlanEntries(sels, ctx, w.md, w.s).value;
      |fields| == |sels| && PlanEntry(sels[i], ctx, w.md, w.s).Ok? &&
      fields[i] == OutputField(sels[i].alias, PlanEntry(sels[i], ctx, w.md, w.s).value)
  {
    var n := |sels| - 1;
    if n > 0 {
      PlanEntryAt(sels[..n], if i < n then i else 0, ctx, w);
    }
  }

  lemma EntryCount(sels: seq<Selection>, ctx: TableCtx, w: World)
    requires PlanEntries(sels, ctx, w.md, w.s).Ok?
    ensures |PlanEntries(sels, ctx, w.md, w.s).value| == |sels|
    ensures IsAggregate(PlanEntries(sels, ctx, w.md, w.s).value) <==> HasEntry(sels)
  {
    if sels != [] {
      PlanEntryAt(sels, 0, ctx, w);
    }
    forall i | 0 <= i < |sels|
      ensures
        var v := PlanEntries(sels, ctx, w.md, w.s).value[i].value;
        (v.Aggregate? || v.Nodes?) <==> (sels[i].name == "aggregate" || sels[i].name == "nodes")
    {
      PlanEntryAt(sels, i, ctx, w);
    }
  }

  lemma {:induction false} EntriesSeen(sels: seq<Selection>, ctx: TableCtx, w: World, rows: seq<Row>, q: SelectQuery)
    requires PlanEntries(sels, ctx, w.md, w.s) == Ok(q.fields) && ctx.perms != [] && q.nodesLimit == PermLimit(ctx.perms)
    requires forall r :: r in rows ==> RowVisible(ctx, w, r)
    requires EveryEntry(sels, ctx, w.md, w.s, SeenTest(w)) && (w.counts.Stored? || CountsUnguarded(sels, ctx, w.md, w.s))
    ensures |q.fields| == |sels|
    ensures AggregateEntries(q.fields, q.nodesLimit, rows, w.db, w.stringify) == SeeEntries(sels, ctx, w, rows)
    decreases sels, 7
  {
    EntryCount(sels, ctx, w);
    var got, want := AggregateEntries(q.fields, q.nodesLimit, rows, w.db, w.stringify), SeeEntries(sels, ctx, w, rows);
    forall i | 0 <= i < |sels| ensures got[i] == want[i] {
      PlanEntryAt(sels, i, ctx, w);
      EntrySeen(sels[i], ctx, w, rows, q.nodesLimit);
    }
    assert got == want;
  }

  ghost predicate CountsSeen(sels: seq<Selection>, ctx: TableCtx, w: World) {
    forall j :: 0 <= j < |sels| ==> CountSeen(sels[j], ctx, w)
  }

  ghost predicate CountSeen(sel: Selection, ctx: TableCtx, w: World) {
    sel.name == "count" ==> w.counts.Stored? || CountUnguarded(sel, ctx, w.md, w.s)
  }

  lemma {:induction false} EntrySeen(sel: Selection, ctx: TableCtx, w: World, rows: seq<Row>, cap: Option<nat>)
    requires PlanEntry(sel, ctx, w.md, w.s).Ok? && ctx.perms != [] && cap == PermLimit(ctx.perms)
    requires forall r :: r in rows ==> RowVisible(ctx, w, r)
    requires BelowEntry(sel, ctx, w.md, w.s, SeenTest(w))
    requires sel.name == "aggregate" ==> CountsSeen(sel.sub, ctx, w)
    ensures AggregateEntry(PlanEntry(sel, ctx, w.md, w.s).value, cap, rows, w.db, w.stringify) == SeeEntry(sel, ctx, w, rows)
    decreases sel, 9
  {
    if sel.name == "__typename" {
    } else if sel.name == "aggregate" {
      AggregatesSeen(sel.sub, ctx, w, rows);
    } else {
      var shown := if cap.Some? && cap.value <= |rows| then rows[..cap.value] else rows;
      assert forall r :: r in shown ==> r in rows;
      RowListSeen(sel.sub, ctx, w, shown);
    }
  }

  lemma {:induction false} PlanAggregateAt(sels: seq<Selection>, i: nat, ctx: TableCtx, w: World, aggs: seq<AggregateField>)
    requires PlanAggregates(sels, ctx, w.md, w.s) == Ok(aggs) && i < |sels|
    ensures |aggs| == |sels| && aggs[i].alias == sels[i].alias && PlanAggregate(sels[i], ctx, w.md, w.s) == Ok(aggs[i].op)
  {
    var n := |sels| - 1;
    var init := PlanAggregates(sels[..n], ctx, w.md, w.s).value;
    var last := PlanAggregate(sels[n], ctx, w.md, w.s).value;
    assert aggs == init + [AggregateField(sels[n].alias, last)];
    if n == 0 {
      assert init == [];
    } else {
      PlanAggregateAt(sels[..n], if i < n then i else 0, ctx, w, init);
    }
  }

  lemma AggregatesSeen(sels: seq<Selection>, ctx: TableCtx, w: World, rows: seq<Row>)
    requires PlanAggregates(sels, ctx, w.md, w.s).Ok? && ctx.perms != []
    requires (forall r :: r in rows ==> RowVisible(ctx, w, r)) && CountsSeen(sels, ctx, w)
    ensures
      var aggs := PlanAggregates(sels, ctx, w.md, w.s).value;
      seq(|aggs|, i requires 0 <= i < |aggs| => (aggs[i].alias, AggregateJson(aggs[i].op, rows, w.db))) ==
      seq(|sels|, i requires 0 <= i < |sels| => (sels[i].alias, SeeAggregate(sels[i], ctx, w, rows)))
  {
    var aggs := PlanAggregates(sels, ctx, w.md, w.s).value;
    if sels != [] {
      PlanAggregateAt(sels, 0, ctx, w, aggs);
    }
    forall i | 0 <= i < |sels|
      ensures aggs[i].alias == sels[i].alias && AggregateJson(aggs[i].op, rows, w.db) == SeeAggregate(sels[i], ctx, w, rows)
    {
      PlanAggregateAt(sels, i, ctx, w, aggs);
      AggregateSeen(sels[i], ctx, w, rows);
    }
  }

  lemma {:induction false} PlanAggColumnAt(sels: seq<Selection>, i: nat, ctx: TableCtx, w: World)
    requires PlanAggColumns(sels, ctx, w.md, w.s).Ok? && i < |sels|
    ensures
      var cols := PlanAggColumns(sels, ctx, w.md, w.s).value;
      |cols| == |sels| && ColumnAllowed(ctx, sels[i].name) && Guard(ctx, sels[i].name, w.md, w.s).Ok? &&
      cols[i] == AggregateColumn(sels[i].alias, sels[i].name, Guard(ctx, sels[i].name, w.md, w.s).value)
  {
    var n := |sels| - 1;
    if n > 0 {
      PlanAggColumnAt(sels[..n], if i < n then i else 0, ctx, w);
    }
  }

  /** An aggregate ranges over exactly the cells the role would be shown; a count
      does when no column it counts needs a guard. */
  lemma AggregateSeen(sel: Selection, ctx: TableCtx, w: World, rows: seq<Row>)
    requires PlanAggregate(sel, ctx, w.md, w.s).Ok? && ctx.perms != []
    requires (forall r :: r in rows ==> RowVisible(ctx, w, r)) && CountSeen(sel, ctx, w)
    ensures AggregateJson(PlanAggregate(sel, ctx, w.md, w.s).value, rows, w.db) == SeeAggregate(sel, ctx, w, rows)
  {
    if sel.name == "count" {
      CountAsShown(ctx, sel, w, rows);
    } else {
      ColumnOpSeen(sel, ctx, w, rows);
    }
  }

  lemma ColumnOpSeen(sel: Selection, ctx: TableCtx, w: World, rows: seq<Row>)
    requires PlanAggregate(sel, ctx, w.md, w.s).Ok? && ctx.perms != [] && sel.name != "count"
    requires forall r :: r in rows ==> RowVisible(ctx, w, r)
    ensures AggregateJson(PlanAggregate(sel, ctx, w.md, w.s).value, rows, w.db) == SeeAggregate(sel, ctx, w, rows)
  {
    var cols := PlanAggColumns(sel.sub, ctx, w.md, w.s).value;
    if sel.sub != [] {
      PlanAggColumnAt(sel.sub, 0, ctx, w);
    }
    forall i | 0 <= i < |sel.sub|
      ensures cols[i].alias == sel.sub[i].alias && Cells(cols[i].column, cols[i].guard, rows, w.db) == ShownCells(ctx, sel.sub[i].name, w, rows)
    {
      PlanAggColumnAt(sel.sub, i, ctx, w);
      CellsSeen(ctx, sel.sub[i].name, w, rows);
    }
  }

  /** The tuples a planned count ranges over, as stored. */
  ghost function StoredTuples(columns: seq<string>, rows: seq<Row>): (ts: seq<seq<Value>>)
    ensures |ts| == |rows| && forall i :: 0 <= i < |rows| ==> ts[i] == StoredTuple(columns, rows[i])
  {
    seq(|rows|, i requires 0 <= i < |rows| => StoredTuple(columns, rows[i]))
  }

  ghost function StoredTuple(columns: seq<string>, row: Row): (vs: seq<Value>)
    ensures |vs| == |columns| && forall k :: 0 <= k < |columns| ==> vs[k] == Get(row, columns[k])
  {
    seq(|columns|, k requires 0 <= k < |columns| => Get(row, columns[k]))
  }

  lemma PlannedCount(distinct: bool, columns: seq<string>, rows: seq<Row>, db: Db)
    ensures AggregateJson(Count(distinct, columns), rows, db) ==
            Num(if columns == [] then |rows| else CountTuples(distinct, StoredTuples(columns, rows)))
  {
    var ts := seq(|rows|, i requires 0 <= i < |rows| => seq(|columns|, k requires 0 <= k < |columns| => Get(rows[i], columns[k])));
    assert ts == StoredTuples(columns, rows);
  }

  lemma CountAsShown(ctx: TableCtx, sel: Selection, w: World, rows: seq<Row>)
    requires PlanAggregate(sel, ctx, w.md, w.s).Ok? && ctx.perms != [] && sel.name == "count"
    requires (forall r :: r in rows ==> RowVisible(ctx, w, r)) && CountSeen(sel, ctx, w)
    ensures AggregateJson(PlanAggregate(sel, ctx, w.md, w.s).value, rows, w.db) == SeeAggregate(sel, ctx, w, rows)
  {
    var columns := sel.args.columns;
    PlannedCount(sel.args.distinct, columns, rows, w.db);
    forall i | 0 <= i < |rows| ensures StoredTuple(columns, rows[i]) == CountedTuple(ctx, columns, w, rows[i]) {
      assert rows[i] in rows;
      forall k | 0 <= k < |columns| ensures Get(rows[i], columns[k]) == CountedCell(ctx, columns[k], w, rows[i]) {
        if w.counts.Shown? {
          GuardMeaning(ctx, columns[k], w, rows[i]);
        }
      }
    }
    assert StoredTuples(columns, rows) == CountedTuples(ctx, columns, w, rows);
  }

  lemma CellsSeen(ctx: TableCtx, column: string, w: World, rows: seq<Row>)
    requires ColumnAllowed(ctx, column) && ctx.perms != [] && Guard(ctx, column, w.md, w.s).Ok?
    requires forall r :: r in rows ==> RowVisible(ctx, w, r)
    ensures Cells(column, Guard(ctx, column, w.md, w.s).value, rows, w.db) == ShownCells(ctx, column, w, rows)
  {
    forall i | 0 <= i < |rows|
      ensures Cell(column, Guard(ctx, column, w.md, w.s).value, rows[i], w.db) == ShownCell(ctx, column, w, rows[i])
    {
      assert rows[i] in rows;
      GuardMeaning(ctx, column, w, rows[i]);
    }
  }

  /** The permission limit is the largest parent limit, or none when some parent
      is unlimited. */
  lemma {:induction false} PermLimitMeaning(perms: seq<SelectPermission>)
    requires perms != []
    ensures PermLimit(perms).None? <==> exists i :: 0 <= i < |perms| && perms[i].limit.None?
    ensures PermLimit(perms).Some? ==>
      (exists i :: 0 <= i < |perms| && perms[i].limit == PermLimit(perms)) &&
      forall i :: 0 <= i < |perms| ==> perms[i].limit.value <= PermLimit(perms).value
  {
    var n := |perms| - 1;
    assert perms[n] == perms[|perms| - 1];
    if n > 0 {
      PermLimitMeaning(perms[..n]);
      assert forall i :: 0 <= i < n ==> perms[..n][i] == perms[i];
      if PermLimit(perms[..n]).None? {
        var i :| 0 <= i < n && perms[..n][i].limit.None?;
        assert perms[i].limit.None?;
      } else {
        var i :| 0 <= i < n && perms[..n][i].limit == PermLimit(perms[..n]);
        assert perms[i].limit == PermLimit(perms[..n]);
      }
    }
  }

  /** An aggregate selection that asks only for `__typename` is planned as a list. */
  lemma TypenameOnlyAggregate(ctx: TableCtx, sel: Selection, outer: Outer, w: World)
    requires BuildSelect(ctx, Aggregation, sel, w.md, w.s).Ok? && !HasEntry(sel.sub)
    ensures SelectJson(BuildSelect(ctx, Aggregation, sel, w.md, w.s).value, outer, w.db, w.stringify) !=
            SeeSelect(ctx, Aggregation, sel, outer, w)
  {
    EntryCount(sel.sub, ctx, w);
  }
}
