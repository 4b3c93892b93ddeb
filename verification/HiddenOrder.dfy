/** `order_by` on a column that some rows hide: exactly when the order of the
    answer depends on cells the role is not shown. */
module HiddenOrder {
  import opened Values
  import opened Database
  import opened Ir
  import opened Planner
  import opened OrderPlan
  import opened SelectPlan
  import opened Meaning
  import opened Sifting
  import opened RoleView
  import opened RoleRows
  import opened CellFilters
  import opened HiddenCells
  import opened HiddenReads

  /** `order_by: {column: asc}` */
  function Ascending(column: string): Args {
    Args(None, Some(Obj([(column, Text("asc"))])), None, None, [], false, [])
  }

  function AscendingOrder(column: string): seq<OrderBy> {
    [OrderBy(ByColumn(column), SortSpec(Asc, Last))]
  }

  lemma {:induction false} AscendingParses(ctx: TableCtx, column: string, md: Metadata, s: Session)
    requires ColumnAllowed(ctx, column)
    ensures UserOrder(ctx, List, Ascending(column), md, s) == Ok(AscendingOrder(column))
  {
    var fields := [(column, Text("asc"))];
    var items := [Obj(fields)];
    assert OrderField(column, Text("asc"), ctx, md, s) == Ok(AscendingOrder(column));
    assert fields[..0] == [] && OrderFields(fields[..0], ctx, md, s) == Ok([]);
    assert [] + AscendingOrder(column) == AscendingOrder(column);
    assert OrderFields(fields, ctx, md, s) == Ok(AscendingOrder(column));
    assert items[..0] == [] && OrderItems(items[..0], ctx, md, s) == Ok([]);
    assert OrderItems(items, ctx, md, s) == Ok(AscendingOrder(column));
  }

  // ----- the rows in their order -----

  ghost function Given(ctx: TableCtx, column: string, w: World): seq<Row> {
    SeenRows(ctx, List, Ascending(column), NoOuter, w)
  }

  lemma {:induction false} GivenIsSorted(ctx: TableCtx, column: string, w: World)
    requires ColumnAllowed(ctx, column)
    ensures Given(ctx, column, w) == Slice(Ordered(VisibleRows(ctx, w), AscendingOrder(column), w.db), PermLimit(ctx.perms), None)
  {
    var asks := Asks(ctx, List, Ascending(column), NoOuter, w);
    forall r: Row ensures asks(r) {
      assert JoinedTo(NoOuter)(r) && Wanted(ctx, List, Ascending(column), w, r);
    }
    IncludedOfVisible(ctx, List, Ascending(column), NoOuter, w);
    SiftAll(VisibleRows(ctx, w), asks);
    AscendingParses(ctx, column, w.md, w.s);
  }

  /** Of two rows the second comes first only when its cell sorts strictly before. */
  lemma {:induction false} FirstOfTwo(a: Row, b: Row, column: string, db: Db)
    ensures Ordered([a, b], AscendingOrder(column), db)[0] ==
            if KeyBefore(db.engine, SortSpec(Asc, Last), Get(b, column), Get(a, column)) then b else a
  {
    var order, rows := AscendingOrder(column), [a, b];
    var specs := Specs(order);
    assert specs == [SortSpec(Asc, Last)];
    var keys := seq(|rows|, i requires 0 <= i < |rows| => OrderKeys(order, rows[i], db));
    var keyed := seq(|rows|, i requires 0 <= i < |rows| => Keyed(keys[i], rows[i]));
    var ka, kb := Keyed([Get(a, column)], a), Keyed([Get(b, column)], b);
    assert keys[0] == [Get(a, column)] && keys[1] == [Get(b, column)];
    assert keyed == [ka, kb];
    SortTwo(db.engine, specs, ka, kb);
    BeforeOne(db.engine, specs, kb.keys, ka.keys);
  }

  lemma {:induction false} BeforeOne(eng: Engine, specs: seq<SortSpec>, x: seq<Value>, y: seq<Value>)
    requires |specs| == |x| == |y| == 1
    ensures Before(eng, specs, x, y) == KeyBefore(eng, specs[0], x[0], y[0])
  {
    assert !Before(eng, specs, x, y, 1);
  }

  lemma {:induction false} SortTwo(eng: Engine, specs: seq<SortSpec>, a: Keyed, b: Keyed)
    requires |a.keys| == |b.keys| == |specs|
    ensures Sort(eng, specs, [a, b])[0] == if Before(eng, specs, b.keys, a.keys) then b else a
  {
    var xs := [a, b];
    assert xs[..1] == [a] && [a][..0] == [];
    assert Sort(eng, specs, [a][..0]) == [];
    assert Sort(eng, specs, [a]) == [a];
    assert Insert(eng, specs, b, [a][..0]) == [b];
  }

  // ----- databases of two rows -----

  function TwoRows(md: Metadata, s: Session, eng: Engine, t: Table, a: seq<Row>, b: seq<Row>): Two {
    Two(md, s, eng, map[t := a], map[t := b], false, Stored)
  }

  lemma {:induction false} TwoRowsAgree(ctx: TableCtx, md: Metadata, s: Session, eng: Engine, a: seq<Row>, b: seq<Row>)
    requires TableCtxOf(md, ctx.table, s) == Some(ctx) && RowsAlike(ctx, TwoRows(md, s, eng, ctx.table, a, b), a, b)
    ensures
      var p := TwoRows(md, s, eng, ctx.table, a, b);
      ShownAgree(p) && VisibleRows(ctx, One(p)) == a && VisibleRows(ctx, Other(p)) == b
  {
    var p := TwoRows(md, s, eng, ctx.table, a, b);
    forall i | 0 <= i < |a| ensures Sees(ctx, One(p))(a[i]) && Sees(ctx, Other(p))(b[i]) {
      assert AlikeIn(ctx, p)(a[i], b[i]);
    }
    SiftAll(a, Sees(ctx, One(p)));
    SiftAll(b, Sees(ctx, Other(p)));
    forall t | TableCtxOf(md, t, s).Some? ensures ShownAgreeAt(TableCtxOf(md, t, s).value, p) {
      if t == ctx.table {
        assert TableCtxOf(md, t, s).value == ctx;
      }
    }
  }

  ghost predicate Of(w: World, md: Metadata, s: Session, eng: Engine) {
    w.md == md && w.s == s && w.db.engine == eng
  }

  /** What a row shows does not depend on the rest of the database, nor, where the
      column is hidden, on the cell in it. */
  lemma {:induction false} ShownAnywhere(ctx: TableCtx, column: string, w1: World, w2: World, r1: Row, r2: Row)
    requires Unread(ctx, column, w1.md, w1.s) && Of(w2, w1.md, w1.s, w1.db.engine) && SameOff(column, r1, r2)
    ensures RowVisible(ctx, w1, r1) == RowVisible(ctx, w2, r2)
    ensures forall d :: CellShown(ctx, d, w1, r1) == CellShown(ctx, d, w2, r2)
    ensures r1 == r2 || !CellShown(ctx, column, w1, r1) ==> forall d :: ShownCell(ctx, d, w1, r1) == ShownCell(ctx, d, w2, r2)
  {
    var p := Two(w1.md, w1.s, w1.db.engine, w1.db.tables, w2.db.tables, false, Stored);
    UnreadPasses(ctx, column, p, r1, r2);
    forall i | 0 <= i < |ctx.perms| ensures PassesPermission(ctx.perms[i], ctx, w1, r1) == PassesPermission(ctx.perms[i], ctx, w2, r2) {
      assert PassesPermission(ctx.perms[i], ctx, w1, r1) == PassesPermission(ctx.perms[i], ctx, One(p), r1);
      assert PassesPermission(ctx.perms[i], ctx, w2, r2) == PassesPermission(ctx.perms[i], ctx, Other(p), r2);
    }
  }

  /** Two rows, each alone in its table, show the same. */
  ghost predicate LooksLike(ctx: TableCtx, md: Metadata, s: Session, eng: Engine, x: Row, y: Row) {
    forall d :: ColumnAllowed(ctx, d) ==> ShownCell(ctx, d, Alone(ctx, md, s, eng, x), x) == ShownCell(ctx, d, Alone(ctx, md, s, eng, y), y)
  }

  /** The order never tells apart databases that look alike. */
  ghost predicate PrivateOrder(ctx: TableCtx, column: string, md: Metadata, s: Session, eng: Engine) {
    forall p :: Of(One(p), md, s, eng) && ShownAgree(p) ==> RowsAlike(ctx, p, Given(ctx, column, One(p)), Given(ctx, column, Other(p)))
  }

  /** Some row hides the column, and some other visible row looks different. */
  ghost predicate Sortable(ctx: TableCtx, column: string, md: Metadata, s: Session, eng: Engine, x: Row, y: Row) {
    Hides(ctx, column, md, s, eng, x) && RowVisible(ctx, Alone(ctx, md, s, eng, y), y) && !LooksLike(ctx, md, s, eng, x, y)
  }

  lemma {:induction false} AlikeLooks(ctx: TableCtx, column: string, md: Metadata, s: Session, eng: Engine, p: Two, x: Row, x1: Row, y: Row)
    requires Unread(ctx, column, md, s) && Of(One(p), md, s, eng) && Hides(ctx, column, md, s, eng, x) && SameOff(column, x, x1)
    requires AlikeIn(ctx, p)(x1, y)
    ensures LooksLike(ctx, md, s, eng, x, y)
  {
    ShownAnywhere(ctx, column, Alone(ctx, md, s, eng, x), One(p), x, x1);
    ShownAnywhere(ctx, column, Alone(ctx, md, s, eng, y), Other(p), y, y);
  }

  /** Databases that look alike are told apart by their first rows. */
  ghost predicate Told(ctx: TableCtx, column: string, p: Two) {
    ShownAgree(p) && !RowsAlike(ctx, p, Given(ctx, column, One(p)), Given(ctx, column, Other(p)))
  }

  lemma {:induction false} FirstRowTells(ctx: TableCtx, column: string, p: Two, a: seq<Row>, b: seq<Row>, r1: Row, r2: Row)
    requires TableCtxOf(p.md, ctx.table, p.s) == Some(ctx) && ColumnAllowed(ctx, column) && PermLimit(ctx.perms) != Some(0)
    requires p == TwoRows(p.md, p.s, p.eng, ctx.table, a, b) && RowsAlike(ctx, p, a, b) && |a| == 2
    requires r1 == Ordered(a, AscendingOrder(column), One(p).db)[0] && r2 == Ordered(b, AscendingOrder(column), Other(p).db)[0]
    requires !AlikeIn(ctx, p)(r1, r2)
    ensures Told(ctx, column, p)
  {
    TwoRowsAgree(ctx, p.md, p.s, p.eng, a, b);
    FirstGiven(ctx, column, One(p), a);
    FirstGiven(ctx, column, Other(p), b);
  }

  lemma {:induction false} PairAlike(ctx: TableCtx, p: Two, a1: Row, b1: Row, a2: Row, b2: Row)
    requires AlikeIn(ctx, p)(a1, a2) && AlikeIn(ctx, p)(b1, b2)
    ensures RowsAlike(ctx, p, [a1, b1], [a2, b2])
  {
  }

  lemma {:induction false} FirstGiven(ctx: TableCtx, column: string, w: World, rows: seq<Row>)
    requires ColumnAllowed(ctx, column) && VisibleRows(ctx, w) == rows && |rows| == 2 && PermLimit(ctx.perms) != Some(0)
    ensures Given(ctx, column, w) != [] && Given(ctx, column, w)[0] == Ordered(rows, AscendingOrder(column), w.db)[0]
  {
    GivenIsSorted(ctx, column, w);
  }

  lemma {:induction false} AlikeOnce(ctx: TableCtx, column: string, md: Metadata, s: Session, eng: Engine, p: Two, r: Row, r1: Row, r2: Row)
    requires Unread(ctx, column, md, s) && Of(One(p), md, s, eng) && RowVisible(ctx, Alone(ctx, md, s, eng, r), r)
    requires SameOff(column, r, r1) && SameOff(column, r, r2)
    requires (r == r1 == r2) || !CellShown(ctx, column, Alone(ctx, md, s, eng, r), r)
    ensures AlikeIn(ctx, p)(r1, r2)
  {
    ShownAnywhere(ctx, column, Alone(ctx, md, s, eng, r), One(p), r, r1);
    ShownAnywhere(ctx, column, Alone(ctx, md, s, eng, r), Other(p), r, r2);
  }

  /** Two versions of `x` beside `y` look alike, and neither looks like `y`. */
  lemma {:induction false} Versions(ctx: TableCtx, column: string, p: Two, x: Row, y: Row, x1: Row, x2: Row)
    requires Unread(ctx, column, p.md, p.s) && Sortable(ctx, column, p.md, p.s, p.eng, x, y) && SameOff(column, x, x1) && SameOff(column, x, x2)
    ensures AlikeIn(ctx, p)(x1, x2) && AlikeIn(ctx, p)(y, y) && !AlikeIn(ctx, p)(x1, y)
  {
    AlikeOnce(ctx, column, p.md, p.s, p.eng, p, x, x1, x2);
    AlikeOnce(ctx, column, p.md, p.s, p.eng, p, y, y, y);
    if AlikeIn(ctx, p)(x1, y) {
      AlikeLooks(ctx, column, p.md, p.s, p.eng, p, x, x1, y);
      assert false;
    }
  }

  /** With `y` before `x` in the table and NULL in `y`, any value moves `x` up. */
  lemma {:induction false} OrderTellsNull(ctx: TableCtx, column: string, md: Metadata, s: Session, eng: Engine, x: Row, y: Row) returns (p: Two)
    requires TableCtxOf(md, ctx.table, s) == Some(ctx) && ColumnAllowed(ctx, column) && Unread(ctx, column, md, s)
    requires Sortable(ctx, column, md, s, eng, x, y) && PermLimit(ctx.perms) != Some(0) && Get(y, column).Null?
    ensures Of(One(p), md, s, eng) && Told(ctx, column, p)
  {
    var x1, x2 := x[column := Text("")], x[column := Null];
    p := TwoRows(md, s, eng, ctx.table, [y, x1], [y, x2]);
    Versions(ctx, column, p, x, y, x1, x2);
    PairAlike(ctx, p, y, x1, y, x2);
    FirstOfTwo(y, x1, column, One(p).db);
    FirstOfTwo(y, x2, column, Other(p).db);
    FirstRowTells(ctx, column, p, [y, x1], [y, x2], x1, y);
  }

  /** With `x` before `y` in the table, NULL instead of the value of `y` moves `x` down. */
  lemma {:induction false} OrderTellsValue(ctx: TableCtx, column: string, md: Metadata, s: Session, eng: Engine, x: Row, y: Row) returns (p: Two)
    requires TableCtxOf(md, ctx.table, s) == Some(ctx) && ColumnAllowed(ctx, column) && Unread(ctx, column, md, s)
    requires Sortable(ctx, column, md, s, eng, x, y) && PermLimit(ctx.perms) != Some(0) && !Get(y, column).Null?
    ensures Of(One(p), md, s, eng) && Told(ctx, column, p)
  {
    var x1, x2 := x[column := Get(y, column)], x[column := Null];
    p := TwoRows(md, s, eng, ctx.table, [x1, y], [x2, y]);
    Versions(ctx, column, p, x, y, x1, x2);
    PairAlike(ctx, p, x1, y, x2, y);
    FirstOfTwo(x1, y, column, One(p).db);
    FirstOfTwo(x2, y, column, Other(p).db);
    FirstRowTells(ctx, column, p, [x1, y], [x2, y], x1, y);
  }

  // ----- the other direction -----

  /** Where no row hides the column, the sort keys are shown. */
  lemma {:induction false} ShownKeysOrder(ctx: TableCtx, column: string, p: Two, xs: seq<Row>, ys: seq<Row>)
    requires ColumnAllowed(ctx, column) && RowsAlike(ctx, p, xs, ys)
    requires forall i :: 0 <= i < |xs| ==> Get(xs[i], column) == Get(ys[i], column)
    ensures RowsAlike(ctx, p, Ordered(xs, AscendingOrder(column), One(p).db), Ordered(ys, AscendingOrder(column), Other(p).db))
  {
    var order := AscendingOrder(column);
    var k1 := seq(|xs|, i requires 0 <= i < |xs| => OrderKeys(order, xs[i], One(p).db));
    var k2 := seq(|ys|, i requires 0 <= i < |ys| => OrderKeys(order, ys[i], Other(p).db));
    assert forall i :: 0 <= i < |xs| ==> k1[i] == [Get(xs[i], column)] && k2[i] == [Get(ys[i], column)];
    SortRowsRelated(p.eng, Specs(order), xs, ys, k1, k2, AlikeIn(ctx, p));
  }

  /** Where all visible rows look the same, any order looks the same. */
  lemma {:induction false} AnyOrder(ctx: TableCtx, p: Two, xs: seq<Row>, ys: seq<Row>, order: seq<OrderBy>)
    requires |xs| == |ys| && forall a, b :: a in xs && b in ys ==> AlikeIn(ctx, p)(a, b)
    ensures RowsAlike(ctx, p, Ordered(xs, order, One(p).db), Ordered(ys, order, Other(p).db))
  {
    var os, ot := Ordered(xs, order, One(p).db), Ordered(ys, order, Other(p).db);
    forall i | 0 <= i < |os| ensures AlikeIn(ctx, p)(os[i], ot[i]) {
      OrderedMember(xs, order, One(p).db, os[i]);
      OrderedMember(ys, order, Other(p).db, ot[i]);
    }
  }

  /** A visible row that hides the column in either database. */
  ghost predicate HiddenIn(ctx: TableCtx, column: string, w: World) {
    exists x :: x in VisibleRows(ctx, w) && Hides(ctx, column, w.md, w.s, w.db.engine, x)
  }

  lemma {:induction false} AllShownKeys(ctx: TableCtx, column: string, p: Two)
    requires ColumnAllowed(ctx, column) && Unread(ctx, column, p.md, p.s) && !HiddenIn(ctx, column, One(p)) && !HiddenIn(ctx, column, Other(p))
    requires ShownAgreeAt(ctx, p)
    ensures
      var xs, ys := VisibleRows(ctx, One(p)), VisibleRows(ctx, Other(p));
      forall i :: 0 <= i < |xs| ==> Get(xs[i], column) == Get(ys[i], column)
  {
    var xs, ys := VisibleRows(ctx, One(p)), VisibleRows(ctx, Other(p));
    forall i | 0 <= i < |xs| ensures Get(xs[i], column) == Get(ys[i], column) {
      assert AlikeIn(ctx, p)(xs[i], ys[i]) && xs[i] in xs && ys[i] in ys;
      NotHidden(ctx, column, p.md, p.s, p.eng, One(p), xs[i]);
      NotHidden(ctx, column, p.md, p.s, p.eng, Other(p), ys[i]);
      ShownEqual(ctx, column, p, xs[i], ys[i]);
    }
  }

  /** All rows that are visible look like `x`. */
  ghost predicate AllLook(ctx: TableCtx, md: Metadata, s: Session, eng: Engine, x: Row) {
    forall y: Row :: RowVisible(ctx, Alone(ctx, md, s, eng, y), y) ==> LooksLike(ctx, md, s, eng, x, y)
  }

  lemma {:induction false} AllAlike(ctx: TableCtx, column: string, p: Two, x: Row, a: Row, b: Row)
    requires Unread(ctx, column, p.md, p.s) && AllLook(ctx, p.md, p.s, p.eng, x)
    requires RowVisible(ctx, One(p), a) && RowVisible(ctx, Other(p), b)
    ensures AlikeIn(ctx, p)(a, b)
  {
    var alone := Alone(ctx, p.md, p.s, p.eng, a);
    ShownAnywhere(ctx, column, alone, One(p), a, a);
    ShownAnywhere(ctx, column, Alone(ctx, p.md, p.s, p.eng, b), Other(p), b, b);
    assert LooksLike(ctx, p.md, p.s, p.eng, x, a) && LooksLike(ctx, p.md, p.s, p.eng, x, b);
  }

  lemma {:induction false} SortedAlike(ctx: TableCtx, column: string, p: Two)
    requires TableCtxOf(p.md, ctx.table, p.s) == Some(ctx) && ColumnAllowed(ctx, column) && Unread(ctx, column, p.md, p.s) && ShownAgree(p)
    requires forall x: Row :: Hides(ctx, column, p.md, p.s, p.eng, x) ==> AllLook(ctx, p.md, p.s, p.eng, x)
    ensures RowsAlike(ctx, p, Ordered(VisibleRows(ctx, One(p)), AscendingOrder(column), One(p).db),
              Ordered(VisibleRows(ctx, Other(p)), AscendingOrder(column), Other(p).db))
  {
    assert ShownAgreeAt(ctx, p);
    var xs, ys := VisibleRows(ctx, One(p)), VisibleRows(ctx, Other(p));
    if !HiddenIn(ctx, column, One(p)) && !HiddenIn(ctx, column, Other(p)) {
      AllShownKeys(ctx, column, p);
      ShownKeysOrder(ctx, column, p, xs, ys);
    } else {
      var x :| Hides(ctx, column, p.md, p.s, p.eng, x);
      forall a, b | a in xs && b in ys ensures AlikeIn(ctx, p)(a, b) {
        VisibleMember(ctx, One(p), a);
        VisibleMember(ctx, Other(p), b);
        AllAlike(ctx, column, p, x, a, b);
      }
      AnyOrder(ctx, p, xs, ys, AscendingOrder(column));
    }
  }

  lemma {:induction false} GivenAlike(ctx: TableCtx, column: string, p: Two)
    requires ColumnAllowed(ctx, column)
    requires PermLimit(ctx.perms) == Some(0) ||
             RowsAlike(ctx, p, Ordered(VisibleRows(ctx, One(p)), AscendingOrder(column), One(p).db),
               Ordered(VisibleRows(ctx, Other(p)), AscendingOrder(column), Other(p).db))
    ensures RowsAlike(ctx, p, Given(ctx, column, One(p)), Given(ctx, column, Other(p)))
  {
    GivenIsSorted(ctx, column, One(p));
    GivenIsSorted(ctx, column, Other(p));
    if PermLimit(ctx.perms) != Some(0) {
      SliceRelated(Ordered(VisibleRows(ctx, One(p)), AscendingOrder(column), One(p).db),
        Ordered(VisibleRows(ctx, Other(p)), AscendingOrder(column), Other(p).db), PermLimit(ctx.perms), None, AlikeIn(ctx, p));
    }
  }

  /** Main result for orderings: the order depends on hidden cells exactly when
      some row hides the column and another visible row looks different (and the
      role is given any row at all). */
  lemma {:induction false} OrderPrivateExact(ctx: TableCtx, column: string, md: Metadata, s: Session, eng: Engine)
    requires TableCtxOf(md, ctx.table, s) == Some(ctx) && ColumnAllowed(ctx, column) && Unread(ctx, column, md, s)
    ensures PrivateOrder(ctx, column, md, s, eng) <==>
            PermLimit(ctx.perms) == Some(0) || forall x, y :: !Sortable(ctx, column, md, s, eng, x, y)
  {
    if PermLimit(ctx.perms) != Some(0) && exists x, y :: Sortable(ctx, column, md, s, eng, x, y) {
      var x, y :| Sortable(ctx, column, md, s, eng, x, y);
      if Get(y, column).Null? {
        var p := OrderTellsNull(ctx, column, md, s, eng, x, y);
        assert !PrivateOrder(ctx, column, md, s, eng);
      } else {
        var p := OrderTellsValue(ctx, column, md, s, eng, x, y);
        assert !PrivateOrder(ctx, column, md, s, eng);
      }
    } else {
      forall p | Of(One(p), md, s, eng) && ShownAgree(p) ensures RowsAlike(ctx, p, Given(ctx, column, One(p)), Given(ctx, column, Other(p))) {
        if PermLimit(ctx.perms) != Some(0) {
          NoneSortable(ctx, column, md, s, eng);
          SortedAlike(ctx, column, p);
        }
        GivenAlike(ctx, column, p);
      }
    }
  }

  lemma {:induction false} NoneSortable(ctx: TableCtx, column: string, md: Metadata, s: Session, eng: Engine)
    requires forall x, y :: !Sortable(ctx, column, md, s, eng, x, y)
    ensures forall x: Row :: Hides(ctx, column, md, s, eng, x) ==> AllLook(ctx, md, s, eng, x)
  {
    forall x: Row | Hides(ctx, column, md, s, eng, x) ensures AllLook(ctx, md, s, eng, x) {
      forall y: Row | RowVisible(ctx, Alone(ctx, md, s, eng, y), y) ensures LooksLike(ctx, md, s, eng, x, y) {
        assert !Sortable(ctx, column, md, s, eng, x, y);
      }
    }
  }

  // ----- the input that shows it -----

  /** Two rows with their hidden cells, and the same rows with the cells exchanged:
      a role that is shown NULL in all of them is given them in opposite orders. */
  lemma {:induction false} OrderTellsHiddenCells(ctx: TableCtx, column: string, other: string, p: Two, x1: Row, y1: Row, x2: Row, y2: Row)
    requires HalfGrantedAt(ctx, column, other, p.md, p.s) && other in ctx.entry.columns && Get(x1, other) != Get(y1, other)
    requires p == TwoRows(p.md, p.s, p.eng, ctx.table, [x1, y1], [x2, y2])
    requires SameOff(column, x1, x2) && SameOff(column, y1, y2)
    requires Get(x2, column) == Get(y1, column) && Get(y2, column) == Get(x1, column) && !Get(x1, column).Null? && !Get(y1, column).Null?
    requires p.eng.less(Get(x1, column), Get(y1, column)) && !p.eng.less(Get(y1, column), Get(x1, column))
    ensures Told(ctx, column, p)
  {
    HalfGrantedView(ctx, column, other, One(p), x1);
    HalfGrantedAlike(ctx, column, other, p, x1, x2);
    HalfGrantedAlike(ctx, column, other, p, y1, y2);
    PairAlike(ctx, p, x1, y1, x2, y2);
    FirstOfTwo(x1, y1, column, One(p).db);
    FirstOfTwo(x2, y2, column, Other(p).db);
    HalfGrantedDiffer(ctx, column, other, p, x1, y2);
    HalfGrantedLimit(ctx.perms, column, other);
    FirstRowTells(ctx, column, p, [x1, y1], [x2, y2], x1, y2);
  }

  lemma {:induction false} HalfGrantedLimit(perms: seq<SelectPermission>, column: string, other: string)
    requires perms == HalfGranted(column, other)
    ensures PermLimit(perms).None?
  {
  }

  lemma {:induction false} HalfGrantedAlike(ctx: TableCtx, column: string, other: string, p: Two, r1: Row, r2: Row)
    requires HalfGrantedAt(ctx, column, other, p.md, p.s) && SameOff(column, r1, r2) && !Get(r1, column).Null? && !Get(r2, column).Null?
    ensures AlikeIn(ctx, p)(r1, r2)
  {
    HalfGrantedView(ctx, column, other, One(p), r1);
    HalfGrantedView(ctx, column, other, Other(p), r2);
    HiddenDifference(ctx, column, p, r1, r2);
  }

  lemma {:induction false} HalfGrantedDiffer(ctx: TableCtx, column: string, other: string, p: Two, r1: Row, r2: Row)
    requires HalfGrantedAt(ctx, column, other, p.md, p.s) && other in ctx.entry.columns && Get(r1, other) != Get(r2, other)
    ensures !AlikeIn(ctx, p)(r1, r2)
  {
    HalfGrantedView(ctx, column, other, One(p), r1);
    HalfGrantedView(ctx, column, other, Other(p), r2);
    assert Grants(ctx.perms[1], other);
    assert CellShown(ctx, other, One(p), r1) && CellShown(ctx, other, Other(p), r2) && ColumnAllowed(ctx, other);
  }
}
