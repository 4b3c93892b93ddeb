/** The rows of an answer stand in the order that the client's `order_by` JSON asks
    for, and there are no more of them than the limits allow. */
module AnswerOrder {
  import opened Values
  import opened Database
  import opened Ir
  import opened Planner
  import opened OrderPlan
  import opened SelectPlan
  import opened Meaning
  import opened Sorting
  import opened RoleView
  import opened OrderReading
  import opened Outcomes
  import opened OrderMeaning
  import FilterReading
  import RoleReading

  // ----- outcomes and sort keys -----

  /** `less` orders all non-null values strictly and totally. */
  ghost predicate TotalOrder(eng: Engine) {
    forall vs: set<Value> :: Null !in vs ==> TotalOn(eng, vs)
  }

  ghost function KeyValues(xs: seq<Keyed>): (vs: set<Value>)
    ensures Null !in vs && AllKeysIn(xs, vs)
  {
    set i, k | 0 <= i < |xs| && 0 <= k < |xs[i].keys| && !xs[i].keys[k].Null? :: xs[i].keys[k]
  }

  ghost predicate CarriesKeys(xs: seq<Keyed>, order: seq<OrderBy>, db: Db) {
    forall i :: 0 <= i < |xs| ==> xs[i].keys == OrderKeys(order, xs[i].row, db)
  }

  lemma {:induction false} SortCarriesKeys(eng: Engine, specs: seq<SortSpec>, xs: seq<Keyed>, order: seq<OrderBy>, db: Db)
    requires Uniform(xs, |specs|) && CarriesKeys(xs, order, db)
    ensures CarriesKeys(Sort(eng, specs, xs), order, db)
  {
    SortPermutes(eng, specs, xs);
    var ys := Sort(eng, specs, xs);
    forall i | 0 <= i < |ys| ensures ys[i].keys == OrderKeys(order, ys[i].row, db) {
      assert ys[i] in multiset(ys);
      assert ys[i] in xs;
    }
  }

  lemma {:induction false} OutcomesAreKeys(order: seq<OrderBy>, db: Db, a: Row, b: Row)
    ensures PlannedOutcomes(order, db, a, b) == KeyOutcomes(db.engine, Specs(order), OrderKeys(order, a, db), OrderKeys(order, b, db))
  {
  }

  /** In the sorted rows no two are the wrong way round. */
  lemma {:induction false} OrderedRows(rows: seq<Row>, order: seq<OrderBy>, db: Db, i: nat, j: nat)
    requires TotalOrder(db.engine) && i < j < |rows|
    ensures |Ordered(rows, order, db)| == |rows|
    ensures Leftmost(PlannedOutcomes(order, db, Ordered(rows, order, db)[i], Ordered(rows, order, db)[j])) != Later
  {
    var keys := seq(|rows|, i requires 0 <= i < |rows| => OrderKeys(order, rows[i], db));
    var keyed := seq(|rows|, i requires 0 <= i < |rows| => Keyed(keys[i], rows[i]));
    var specs := Specs(order);
    var sorted, vs := Sort(db.engine, specs, keyed), KeyValues(keyed);
    SortInOrder(db.engine, specs, keyed, vs);
    SortCarriesKeys(db.engine, specs, keyed, order, db);
    PairInOrder(sorted, order, db, i, j, vs);
  }

  lemma {:induction false} PairInOrder(sorted: seq<Keyed>, order: seq<OrderBy>, db: Db, i: nat, j: nat, vs: set<Value>)
    requires i < j < |sorted| && Uniform(sorted, |Specs(order)|) && TotalOn(db.engine, vs) && AllKeysIn(sorted, vs)
    requires InOrder(db.engine, Specs(order), sorted) && CarriesKeys(sorted, order, db)
    ensures Leftmost(PlannedOutcomes(order, db, sorted[i].row, sorted[j].row)) != Later
  {
    OutcomesAreKeys(order, db, sorted[i].row, sorted[j].row);
    LaterIsBefore(db.engine, Specs(order), sorted[i].keys, sorted[j].keys, 0, vs);
    var outcomes := KeyOutcomes(db.engine, Specs(order), sorted[i].keys, sorted[j].keys);
    assert outcomes[0..] == outcomes;
  }

  // ----- limits -----

  /** OFFSET skips rows, LIMIT keeps that many of the next, and nothing moves. */
  lemma {:induction false} SliceMeans<T>(rows: seq<T>, limit: Option<nat>, offset: Option<nat>)
    ensures
      var skip := if offset.Some? then offset.value else 0;
      var left := if skip <= |rows| then |rows| - skip else 0;
      var cut := Slice(rows, limit, offset);
      |cut| == (if limit.Some? && limit.value < left then limit.value else left) && forall i :: 0 <= i < |cut| ==> cut[i] == rows[skip + i]
  {
  }

  /** A limit that holds for the role or for the user. */
  ghost predicate Limits(ctx: TableCtx, kind: Kind, args: Args, limit: nat) {
    (args.limit == Some(limit) && !kind.ByPk?) ||
    (kind.List? && ctx.perms != [] && forall i :: 0 <= i < |ctx.perms| ==> ctx.perms[i].limit.Some? && ctx.perms[i].limit.value <= limit)
  }

  /** Main result for limits: a list never has more rows than the user's limit, nor
      than the largest limit of the role's permissions when all have one. */
  lemma {:induction false} WithinLimits(ctx: TableCtx, kind: Kind, args: Args, outer: Outer, w: World, limit: nat)
    requires Limits(ctx, kind, args, limit)
    ensures |SeenRows(ctx, kind, args, outer, w)| <= limit
  {
    if ctx.perms != [] {
      PermLimitMeaning(ctx.perms);
    }
    var rows := Ordered(IncludedRows(ctx, kind, args, outer, w), OrderAsked(ctx, kind, args, w), w.db);
    SliceMeans(rows, if kind.List? then Smaller(args.limit, PermLimit(ctx.perms)) else args.limit, args.offset);
  }

  /** Without a limit that binds nothing is cut. */
  lemma {:induction false} Uncut(ctx: TableCtx, kind: Kind, args: Args, outer: Outer, w: World)
    requires !kind.ByPk? && args.offset.None?
    requires forall limit :: Limits(ctx, kind, args, limit) ==> |IncludedRows(ctx, kind, args, outer, w)| <= limit
    ensures SeenRows(ctx, kind, args, outer, w) == Ordered(IncludedRows(ctx, kind, args, outer, w), OrderAsked(ctx, kind, args, w), w.db)
  {
    if ctx.perms != [] {
      PermLimitMeaning(ctx.perms);
    }
    var rows := Ordered(IncludedRows(ctx, kind, args, outer, w), OrderAsked(ctx, kind, args, w), w.db);
    if args.limit.Some? {
      assert Limits(ctx, kind, args, args.limit.value);
    }
    if kind.List? && PermLimit(ctx.perms).Some? {
      assert Limits(ctx, kind, args, PermLimit(ctx.perms).value);
    }
    SliceMeans(rows, if kind.List? then Smaller(args.limit, PermLimit(ctx.perms)) else args.limit, args.offset);
  }

  // ----- answers -----

  ghost function Sorted(ctx: TableCtx, kind: Kind, args: Args, outer: Outer, w: World): seq<Row> {
    Ordered(IncludedRows(ctx, kind, args, outer, w), OrderAsked(ctx, kind, args, w), w.db)
  }

  function Skipped(args: Args): nat {
    if args.offset.Some? then args.offset.value else 0
  }

  function LimitOf(ctx: TableCtx, kind: Kind, args: Args): Option<nat> {
    if kind.List? then Smaller(args.limit, PermLimit(ctx.perms)) else args.limit
  }

  lemma {:induction false} SeenIsSlice(ctx: TableCtx, kind: Kind, args: Args, outer: Outer, w: World)
    requires !kind.ByPk?
    ensures SeenRows(ctx, kind, args, outer, w) == Slice(Sorted(ctx, kind, args, outer, w), LimitOf(ctx, kind, args), args.offset)
  {
  }

  lemma {:induction false} SliceAt(rows: seq<Row>, limit: Option<nat>, args: Args, i: nat)
    requires i < |Slice(rows, limit, args.offset)|
    ensures Skipped(args) + i < |rows| && Slice(rows, limit, args.offset)[i] == rows[Skipped(args) + i]
  {
    SliceMeans(rows, limit, args.offset);
  }

  lemma {:induction false} SeenAt(ctx: TableCtx, kind: Kind, args: Args, outer: Outer, w: World, i: nat)
    requires !kind.ByPk? && i < |SeenRows(ctx, kind, args, outer, w)|
    ensures Skipped(args) + i < |Sorted(ctx, kind, args, outer, w)|
    ensures SeenRows(ctx, kind, args, outer, w)[i] == Sorted(ctx, kind, args, outer, w)[Skipped(args) + i]
  {
    SeenIsSlice(ctx, kind, args, outer, w);
    SliceAt(Sorted(ctx, kind, args, outer, w), LimitOf(ctx, kind, args), args, i);
  }

  lemma {:induction false} SortedPair(ctx: TableCtx, kind: Kind, args: Args, outer: Outer, w: World, i: nat, j: nat, x: Row, y: Row)
    requires TotalOrder(w.db.engine) && i < j < |Sorted(ctx, kind, args, outer, w)|
    requires x == Sorted(ctx, kind, args, outer, w)[i] && y == Sorted(ctx, kind, args, outer, w)[j]
    ensures Leftmost(PlannedOutcomes(OrderAsked(ctx, kind, args, w), w.db, x, y)) != Later
  {
    OrderedRows(IncludedRows(ctx, kind, args, outer, w), OrderAsked(ctx, kind, args, w), w.db, i, j);
  }

  lemma {:induction false} SeenPair(ctx: TableCtx, kind: Kind, args: Args, outer: Outer, w: World, i: nat, j: nat, x: Row, y: Row)
    requires !kind.ByPk? && TotalOrder(w.db.engine) && i < j < |SeenRows(ctx, kind, args, outer, w)|
    requires x == SeenRows(ctx, kind, args, outer, w)[i] && y == SeenRows(ctx, kind, args, outer, w)[j]
    ensures Leftmost(PlannedOutcomes(OrderAsked(ctx, kind, args, w), w.db, x, y)) != Later
  {
    SeenAt(ctx, kind, args, outer, w, i);
    SeenAt(ctx, kind, args, outer, w, j);
    SortedPair(ctx, kind, args, outer, w, Skipped(args) + i, Skipped(args) + j, x, y);
  }

  lemma {:induction false} PairReads(ctx: TableCtx, kind: Kind, args: Args, w: World, x: Row, y: Row)
    requires !kind.ByPk? && args.orderBy.Some? && ParseOrderBy(args.orderBy.value, ctx, w.md, w.s).Ok?
    ensures Leftmost(PlannedOutcomes(OrderAsked(ctx, kind, args, w), w.db, x, y)) == Comes(args.orderBy.value, ctx, RoleReading.ScopeOf(w), x, y)
  {
    OrderMeans(args.orderBy.value, ctx, RoleReading.ScopeOf(w), x, y);
  }

  /** Main result for order: of two rows of an answer the JSON never wants the later
      one first. */
  lemma {:induction false} AnswerInOrder(ctx: TableCtx, kind: Kind, args: Args, outer: Outer, w: World, i: nat, j: nat)
    requires !kind.ByPk? && args.orderBy.Some? && ParseOrderBy(args.orderBy.value, ctx, w.md, w.s).Ok? && TotalOrder(w.db.engine)
    requires i < j < |SeenRows(ctx, kind, args, outer, w)|
    ensures
      var rows := SeenRows(ctx, kind, args, outer, w);
      Comes(args.orderBy.value, ctx, RoleReading.ScopeOf(w), rows[i], rows[j]) != Later
  {
    var x, y := SeenRows(ctx, kind, args, outer, w)[i], SeenRows(ctx, kind, args, outer, w)[j];
    SeenPair(ctx, kind, args, outer, w, i, j, x, y);
    PairReads(ctx, kind, args, w, x, y);
  }
}
