/** Relay cursor paging over a one-column primary key: `build_connection` in the
    planner and `connection_expr` in the generator. The theorems are about whole
    paging runs over a fixed snapshot. */
module Relay {
  import opened Values
  import opened Database
  import opened Ir
  import opened Meaning
  import JsonAccess
  import SelectPlan
  import opened Conjunctions
  import opened Paging

  const U64: nat := 0x1_0000_0000_0000_0000

  datatype RelayPage = RelayPage(size: nat, backward: bool, hasOtherSide: bool)

  /** The row source of a connection: the table, its key column, the user's
      `where`, the role's filter and its permission limit. */
  datatype Source = Source(table: Table, pk: string, pkType: string, where: Option<BoolExp>, perm: Option<BoolExp>,
                           permLimit: Option<nat>, fields: seq<OutputField>)

  /** `after` and `before` are decoded cursors. */
  datatype PageArgs = PageArgs(first: Option<nat>, last: Option<nat>, after: Option<Value>, before: Option<Value>)

  datatype Connection = Connection(query: SelectQuery, pk: string, page: Option<RelayPage>)

  /** A cursor without the key column adds no condition. */
  function CursorBound(src: Source, cursor: Option<Value>, op: BinOp): seq<BoolExp> {
    if cursor.Some? && JsonAccess.Member(cursor.value, src.pk).Some?
    then [Compare(src.pk, src.pkType, Bin(op, JsonAccess.Member(cursor.value, src.pk).value))]
    else []
  }

  function PageOf(args: PageArgs): Option<RelayPage> {
    if args.first.Some? then Some(RelayPage(args.first.value, false, args.after.Some?))
    else if args.last.Some? then Some(RelayPage(args.last.value, true, args.before.Some?))
    else None
  }

  function BuildConnection(src: Source, args: PageArgs): Connection {
    var predicates := SelectPlan.AsList(src.where) + CursorBound(src, args.after, Gt) + CursorBound(src, args.before, Lt) + SelectPlan.AsList(src.perm);
    var q := SelectQuery(Scan(src.table), src.fields, SelectPlan.Merge(predicates), [], src.permLimit, None, None, false);
    Connection(q, src.pk, PageOf(args))
  }

  /** The query behind the edges: ordered by the key, reversed when paging back,
      and one row more than the page. The sum is 64-bit. */
  function EdgeQuery(c: Connection): SelectQuery {
    var backward := c.page.Some? && c.page.value.backward;
    var order := [OrderBy(ByColumn(c.pk), SortSpec(if backward then Desc else Asc, Last))];
    var q := c.query.(orderBy := order);
    if c.page.Some? then q.(limit := Some((c.page.value.size + 1) % U64)) else q
  }

  ghost function Fetched(c: Connection, db: Db): seq<Row> {
    SelectRows(EdgeQuery(c), NoOuter, db)
  }

  function Reverse<T>(xs: seq<T>): (ys: seq<T>)
    ensures |ys| == |xs| && forall i :: 0 <= i < |xs| ==> ys[i] == xs[|xs| - 1 - i]
  {
    seq(|xs|, i requires 0 <= i < |xs| => xs[|xs| - 1 - i])
  }

  /** The edges shown: the first `size` fetched rows, turned around again when
      paging back. */
  function Shown<T>(page: Option<RelayPage>, rows: seq<T>): seq<T> {
    if page.None? then rows
    else
      var cut := if page.value.size <= |rows| then rows[..page.value.size] else rows;
      if page.value.backward then Reverse(cut) else cut
  }

  function HasMore(page: Option<RelayPage>, rows: seq<Row>): bool {
    |rows| > if page.Some? then page.value.size else U64 - 1
  }

  function HasNextPage(page: Option<RelayPage>, rows: seq<Row>): bool {
    if page.Some? && !page.value.backward then HasMore(page, rows) else page.Some? && page.value.hasOtherSide
  }

  function HasPreviousPage(page: Option<RelayPage>, rows: seq<Row>): bool {
    if page.Some? && page.value.backward then HasMore(page, rows) else page.Some? && page.value.hasOtherSide
  }

  /** `{"pk" : v}` */
  function KeyCursor(pk: string, k: Value): Value {
    Obj([(pk, k)])
  }

  // ----- sorting by the key -----

  ghost predicate Increasing(eng: Engine, spec: SortSpec, xs: seq<Keyed>) {
    Uniform(xs, 1) && forall i, j :: 0 <= i < j < |xs| ==> KeyBefore(eng, spec, xs[i].keys[0], xs[j].keys[0])
  }

  ghost predicate KeysIn(xs: seq<Keyed>, keys: set<Value>) {
    Uniform(xs, 1) && forall i :: 0 <= i < |xs| ==> xs[i].keys[0] in keys
  }

  lemma AppendIncreasing(eng: Engine, spec: SortSpec, xs: seq<Keyed>, x: Keyed)
    requires Uniform(xs, 1) && |x.keys| == 1 && Increasing(eng, spec, xs)
    requires forall i :: 0 <= i < |xs| ==> KeyBefore(eng, spec, xs[i].keys[0], x.keys[0])
    ensures Uniform(xs + [x], 1) && Increasing(eng, spec, xs + [x])
  {
  }

  lemma BeforeIsKeyBefore(eng: Engine, spec: SortSpec, a: seq<Value>, b: seq<Value>)
    requires |a| == |b| == 1 && a[0] != b[0]
    ensures Before(eng, [spec], a, b) == KeyBefore(eng, spec, a[0], b[0])
  {
  }

  /** In a total order the last key is on one side of `x`, and then so is
      everything before it. */
  lemma AllBefore(eng: Engine, spec: SortSpec, x: Keyed, xs: seq<Keyed>, keys: set<Value>)
    requires |x.keys| == 1 && KeysIn(xs, keys) && x.keys[0] in keys && TotalOn(eng, keys) && xs != []
    requires Increasing(eng, spec, xs) && xs[|xs| - 1].keys[0] != x.keys[0]
    requires !KeyBefore(eng, spec, x.keys[0], xs[|xs| - 1].keys[0])
    ensures forall i :: 0 <= i < |xs| ==> KeyBefore(eng, spec, xs[i].keys[0], x.keys[0])
  {
    var last := xs[|xs| - 1].keys[0];
    assert KeyBefore(eng, spec, last, x.keys[0]);
    forall i | 0 <= i < |xs| ensures KeyBefore(eng, spec, xs[i].keys[0], x.keys[0]) {
      assert i < |xs| - 1 ==> KeyBefore(eng, spec, xs[i].keys[0], last);
    }
  }

  lemma {:induction false} InsertIncreasing(eng: Engine, spec: SortSpec, x: Keyed, xs: seq<Keyed>, keys: set<Value>)
    requires |x.keys| == 1 && KeysIn(xs, keys) && x.keys[0] in keys && TotalOn(eng, keys)
    requires Increasing(eng, spec, xs) && forall i :: 0 <= i < |xs| ==> xs[i].keys[0] != x.keys[0]
    ensures Increasing(eng, spec, Insert(eng, [spec], x, xs))
  {
    if xs != [] {
      var n := |xs| - 1;
      BeforeIsKeyBefore(eng, spec, x.keys, xs[n].keys);
      if KeyBefore(eng, spec, x.keys[0], xs[n].keys[0]) {
        var ys := Insert(eng, [spec], x, xs[..n]);
        InsertIncreasing(eng, spec, x, xs[..n], keys);
        InsertedBefore(eng, spec, x, xs[..n], xs[n].keys[0], ys);
        AppendIncreasing(eng, spec, ys, xs[n]);
      } else {
        AllBefore(eng, spec, x, xs, keys);
        AppendIncreasing(eng, spec, xs, x);
      }
    }
  }

  /** Inserting adds nothing that is not before `last`. */
  lemma InsertedBefore(eng: Engine, spec: SortSpec, x: Keyed, xs: seq<Keyed>, last: Value, ys: seq<Keyed>)
    requires |x.keys| == 1 && Uniform(xs, 1) && ys == Insert(eng, [spec], x, xs)
    requires KeyBefore(eng, spec, x.keys[0], last)
    requires forall i :: 0 <= i < |xs| ==> KeyBefore(eng, spec, xs[i].keys[0], last)
    ensures forall i :: 0 <= i < |ys| ==> KeyBefore(eng, spec, ys[i].keys[0], last)
  {
    InsertPermutes(eng, [spec], x, xs);
    forall i | 0 <= i < |ys| ensures KeyBefore(eng, spec, ys[i].keys[0], last) {
      assert ys[i] in multiset(ys);
      if ys[i] != x {
        assert ys[i] in xs;
      }
    }
  }

  lemma {:induction false} SortIncreasing(eng: Engine, spec: SortSpec, xs: seq<Keyed>, keys: set<Value>)
    requires KeysIn(xs, keys) && TotalOn(eng, keys)
    requires forall i, j :: 0 <= i < j < |xs| ==> xs[i].keys[0] != xs[j].keys[0]
    ensures Increasing(eng, spec, Sort(eng, [spec], xs))
  {
    if xs != [] {
      var n := |xs| - 1;
      var init := Sort(eng, [spec], xs[..n]);
      SortIncreasing(eng, spec, xs[..n], keys);
      SortPermutes(eng, [spec], xs[..n]);
      forall i | 0 <= i < |init| ensures init[i].keys[0] in keys && init[i].keys[0] != xs[n].keys[0] {
        assert init[i] in multiset(init);
        assert init[i] in xs[..n];
      }
      InsertIncreasing(eng, spec, xs[n], init, keys);
    }
  }

  /** Rows in strictly ascending key order. */
  ghost predicate Ascending(eng: Engine, pk: string, rows: seq<Row>) {
    forall i, j :: 0 <= i < j < |rows| ==> eng.less(Get(rows[i], pk), Get(rows[j], pk))
  }

  ghost predicate Directed(eng: Engine, pk: string, dir: Direction, rows: seq<Row>) {
    if dir.Asc? then Ascending(eng, pk, rows) else Ascending(eng, pk, Reverse(rows))
  }

  ghost predicate DistinctKeys(pk: string, rows: seq<Row>) {
    forall i, j :: 0 <= i < j < |rows| ==> Get(rows[i], pk) != Get(rows[j], pk)
  }

  /** What the keyed sort returns, row by row. */
  lemma KeyedSort(rows: seq<Row>, pk: string, dir: Direction, eng: Engine, keys: set<Value>, keyed: seq<Keyed>, sorted: seq<Keyed>)
    requires TotalOn(eng, keys) && DistinctKeys(pk, rows) && forall i :: 0 <= i < |rows| ==> Get(rows[i], pk) in keys
    requires |keyed| == |rows| && forall i :: 0 <= i < |rows| ==> keyed[i] == Keyed([Get(rows[i], pk)], rows[i])
    requires sorted == Sort(eng, [SortSpec(dir, Last)], keyed)
    ensures |sorted| == |rows| && multiset(sorted) == multiset(keyed)
    ensures forall i :: 0 <= i < |sorted| ==> sorted[i].row in rows && sorted[i].keys == [Get(sorted[i].row, pk)]
    ensures forall i, j :: 0 <= i < j < |sorted| ==>
      if dir.Asc? then eng.less(sorted[i].keys[0], sorted[j].keys[0]) else eng.less(sorted[j].keys[0], sorted[i].keys[0])
  {
    var spec := SortSpec(dir, Last);
    SortIncreasing(eng, spec, keyed, keys);
    SortPermutes(eng, [spec], keyed);
    forall i | 0 <= i < |sorted|
      ensures sorted[i].row in rows && sorted[i].keys == [Get(sorted[i].row, pk)] && sorted[i].keys[0] in keys
    {
      assert sorted[i] in multiset(sorted);
      assert sorted[i] in keyed;
    }
    forall i, j | 0 <= i < j < |sorted|
      ensures if dir.Asc? then eng.less(sorted[i].keys[0], sorted[j].keys[0]) else eng.less(sorted[j].keys[0], sorted[i].keys[0])
    {
      assert KeyBefore(eng, spec, sorted[i].keys[0], sorted[j].keys[0]);
    }
  }

  /** ORDER BY the key column sorts, and neither loses nor invents rows. */
  lemma OrderedByKey(rows: seq<Row>, pk: string, dir: Direction, db: Db, keys: set<Value>)
    requires TotalOn(db.engine, keys) && DistinctKeys(pk, rows) && forall i :: 0 <= i < |rows| ==> Get(rows[i], pk) in keys
    ensures
      var out := Ordered(rows, [OrderBy(ByColumn(pk), SortSpec(dir, Last))], db);
      |out| == |rows| && Directed(db.engine, pk, dir, out) && forall r :: r in out <==> r in rows
  {
    var order := [OrderBy(ByColumn(pk), SortSpec(dir, Last))];
    assert Specs(order) == [SortSpec(dir, Last)];
    var ks := seq(|rows|, i requires 0 <= i < |rows| => OrderKeys(order, rows[i], db));
    var keyed := seq(|rows|, i requires 0 <= i < |rows| => Keyed(ks[i], rows[i]));
    assert forall i :: 0 <= i < |rows| ==> ks[i] == [Get(rows[i], pk)];
    var sorted := Sort(db.engine, [SortSpec(dir, Last)], keyed);
    KeyedSort(rows, pk, dir, db.engine, keys, keyed, sorted);
    SortedOut(rows, pk, dir, db.engine, keyed, sorted, Ordered(rows, order, db));
  }

  lemma SortedOut(rows: seq<Row>, pk: string, dir: Direction, eng: Engine, keyed: seq<Keyed>, sorted: seq<Keyed>, out: seq<Row>)
    requires |keyed| == |rows| == |sorted| == |out| && multiset(sorted) == multiset(keyed)
    requires forall i :: 0 <= i < |rows| ==> keyed[i].row == rows[i]
    requires forall i :: 0 <= i < |out| ==> sorted[i].row == out[i] && sorted[i].keys == [Get(out[i], pk)]
    requires forall i, j :: 0 <= i < j < |sorted| ==>
      if dir.Asc? then eng.less(sorted[i].keys[0], sorted[j].keys[0]) else eng.less(sorted[j].keys[0], sorted[i].keys[0])
    ensures Directed(eng, pk, dir, out) && forall r :: r in out <==> r in rows
  {
    DirectedRows(pk, dir, eng, sorted, out);
    forall r ensures r in out <==> r in rows {
      SameRow(rows, keyed, sorted, out, r);
    }
  }

  lemma SameRow(rows: seq<Row>, keyed: seq<Keyed>, sorted: seq<Keyed>, out: seq<Row>, r: Row)
    requires |keyed| == |rows| == |sorted| == |out| && multiset(sorted) == multiset(keyed)
    requires forall i :: 0 <= i < |rows| ==> keyed[i].row == rows[i] && sorted[i].row == out[i]
    ensures r in out <==> r in rows
  {
    if r in rows {
      var i :| 0 <= i < |rows| && rows[i] == r;
      assert keyed[i] in multiset(keyed);
      assert keyed[i] in sorted;
    }
    if r in out {
      var i :| 0 <= i < |out| && out[i] == r;
      assert sorted[i] in multiset(sorted);
      assert sorted[i] in keyed;
    }
  }

  lemma DirectedRows(pk: string, dir: Direction, eng: Engine, sorted: seq<Keyed>, out: seq<Row>)
    requires |sorted| == |out| && forall i :: 0 <= i < |out| ==> sorted[i].row == out[i] && sorted[i].keys == [Get(out[i], pk)]
    requires forall i, j :: 0 <= i < j < |sorted| ==>
      if dir.Asc? then eng.less(sorted[i].keys[0], sorted[j].keys[0]) else eng.less(sorted[j].keys[0], sorted[i].keys[0])
    ensures Directed(eng, pk, dir, out)
  {
    var rev := Reverse(out);
    forall i, j | 0 <= i < j < |out|
      ensures dir.Asc? ==> eng.less(Get(out[i], pk), Get(out[j], pk))
      ensures dir.Desc? ==> eng.less(Get(rev[i], pk), Get(rev[j], pk))
    {
      assert rev[i] == out[|out| - 1 - i] && rev[j] == out[|out| - 1 - j];
    }
  }

  /** Two ascending sequences with the same rows are equal. */
  lemma {:induction false} AscendingUnique(eng: Engine, pk: string, xs: seq<Row>, ys: seq<Row>, keys: set<Value>)
    requires TotalOn(eng, keys) && Ascending(eng, pk, xs) && Ascending(eng, pk, ys)
    requires forall r :: r in xs <==> r in ys
    requires forall r :: r in xs ==> Get(r, pk) in keys
    ensures xs == ys
  {
    var x0 := if |xs| > 0 then xs[0] else map[];
    var y0 := if |ys| > 0 then ys[0] else map[];
    assert (|xs| > 0 ==> x0 in xs) && (|ys| > 0 ==> y0 in ys);
    if xs != [] && ys != [] {
      FirstIsLeast(eng, pk, xs, ys, keys);
      NotAgain(eng, pk, xs, keys);
      NotAgain(eng, pk, ys, keys);
      assert xs == [xs[0]] + xs[1..] && ys == [ys[0]] + ys[1..];
      AscendingUnique(eng, pk, xs[1..], ys[1..], keys);
    }
  }

  lemma FirstIsLeast(eng: Engine, pk: string, xs: seq<Row>, ys: seq<Row>, keys: set<Value>)
    requires TotalOn(eng, keys) && Ascending(eng, pk, xs) && Ascending(eng, pk, ys) && xs != [] && ys != []
    requires forall r :: r in xs <==> r in ys
    requires forall r :: r in xs ==> Get(r, pk) in keys
    ensures xs[0] == ys[0]
  {
    assert xs[0] in xs && ys[0] in ys;
    var i :| 0 <= i < |ys| && ys[i] == xs[0];
    var j :| 0 <= j < |xs| && xs[j] == ys[0];
    assert forall m :: 0 < m < |ys| ==> eng.less(Get(ys[0], pk), Get(ys[m], pk));
    assert forall m :: 0 < m < |xs| ==> eng.less(Get(xs[0], pk), Get(xs[m], pk));
  }

  lemma NotAgain(eng: Engine, pk: string, xs: seq<Row>, keys: set<Value>)
    requires TotalOn(eng, keys) && Ascending(eng, pk, xs) && xs != []
    requires forall r :: r in xs ==> Get(r, pk) in keys
    ensures xs[0] !in xs[1..]
  {
    assert xs[0] in xs;
    forall i | 0 <= i < |xs| - 1 ensures xs[1..][i] != xs[0] {
      assert eng.less(Get(xs[0], pk), Get(xs[i + 1], pk));
    }
  }

  // ----- the snapshot -----

  /** The rows of the connection: the user's filter and the role's filter hold. */
  ghost predicate InScope(src: Source, db: Db, r: Row) {
    Passes(src.where, db, r) && Passes(src.perm, db, r)
  }

  /** A snapshot whose visible keys are distinct, non-null, totally ordered, and
      survive the trip through a cursor literal. */
  ghost predicate Snapshot(src: Source, db: Db, keys: set<Value>) {
    var rows := Rows(db, src.table);
    && TotalOn(db.engine, keys)
    && (forall k :: k in keys ==> LitValue(db.engine, k, src.pkType) == k)
    && (forall i :: 0 <= i < |rows| && InScope(src, db, rows[i]) ==> Get(rows[i], src.pk) in keys)
    && (forall i, j :: 0 <= i < j < |rows| && InScope(src, db, rows[i]) && InScope(src, db, rows[j]) ==>
          Get(rows[i], src.pk) != Get(rows[j], src.pk))
  }

  /** All rows in scope in ascending key order: what the run must deliver. */
  ghost predicate IsListing(src: Source, db: Db, all: seq<Row>) {
    Ascending(db.engine, src.pk, all) && forall r :: r in all <==> r in Rows(db, src.table) && InScope(src, db, r)
  }

  ghost predicate Within(eng: Engine, b: Bound, k: Value) {
    match b
    case NoBound => true
    case Above(lo) => eng.less(lo, k)
    case Below(hi) => eng.less(k, hi)
  }

  function ArgsOf(src: Source, size: nat, backward: bool, b: Bound): PageArgs {
    PageArgs(if backward then None else Some(size), if backward then Some(size) else None,
             if b.Above? then Some(KeyCursor(src.pk, b.k)) else None,
             if b.Below? then Some(KeyCursor(src.pk, b.k)) else None)
  }

  lemma CursorBoundIs(src: Source, k: Value, op: BinOp)
    ensures CursorBound(src, Some(KeyCursor(src.pk, k)), op) == [Compare(src.pk, src.pkType, Bin(op, k))]
  {
    var cursor := KeyCursor(src.pk, k);
    assert JsonAccess.MemberOf(cursor, cursor.fields, src.pk) == Some(k);
  }

  /** The merged predicate of a page admits exactly the rows in scope beyond the cursor. */
  lemma PagePredicate(src: Source, size: nat, backward: bool, b: Bound, db: Db, keys: set<Value>, r: Row)
    requires Snapshot(src, db, keys) && (b.NoBound? || b.k in keys)
    requires InScope(src, db, r) ==> Get(r, src.pk) in keys
    ensures Passes(BuildConnection(src, ArgsOf(src, size, backward, b)).query.filter, db, r) <==>
            InScope(src, db, r) && Within(db.engine, b, Get(r, src.pk))
  {
    var args := ArgsOf(src, size, backward, b);
    var gt, lt := CursorBound(src, args.after, Gt), CursorBound(src, args.before, Lt);
    var ps := SelectPlan.AsList(src.where) + gt + lt + SelectPlan.AsList(src.perm);
    MergeMeaning(ps, db, r);
    AllFour(SelectPlan.AsList(src.where), gt, lt, SelectPlan.AsList(src.perm), db, r);
    ListedTrue(src.where, db, r);
    ListedTrue(src.perm, db, r);
    if InScope(src, db, r) {
      BoundHolds(src, size, backward, b, db, keys, r);
    }
  }

  lemma AllFour(a: seq<BoolExp>, b: seq<BoolExp>, c: seq<BoolExp>, d: seq<BoolExp>, db: Db, r: Row)
    ensures AllTrue(a + b + c + d, db, r) <==> AllTrue(a, db, r) && AllTrue(b, db, r) && AllTrue(c, db, r) && AllTrue(d, db, r)
  {
    AllTrueSplit(a, b, db, r);
    AllTrueSplit(a + b, c, db, r);
    AllTrueSplit(a + b + c, d, db, r);
  }

  /** The cursor conditions of a page, together. */
  lemma BoundHolds(src: Source, size: nat, backward: bool, b: Bound, db: Db, keys: set<Value>, r: Row)
    requires Snapshot(src, db, keys) && (b.NoBound? || b.k in keys) && Get(r, src.pk) in keys
    ensures
      var args := ArgsOf(src, size, backward, b);
      AllTrue(CursorBound(src, args.after, Gt), db, r) && AllTrue(CursorBound(src, args.before, Lt), db, r) <==>
      Within(db.engine, b, Get(r, src.pk))
  {
    match b
    case NoBound =>
    case Above(k) =>
      CursorBoundIs(src, k, Gt);
      ListedTrue(Some(Compare(src.pk, src.pkType, Bin(Gt, k))), db, r);
      assert Get(r, src.pk) != Null && k != Null;
    case Below(k) =>
      CursorBoundIs(src, k, Lt);
      ListedTrue(Some(Compare(src.pk, src.pkType, Bin(Lt, k))), db, r);
      assert Get(r, src.pk) != Null && k != Null;
  }

  // ----- one page -----

  lemma {:induction false} KeepDistinct(rows: seq<Row>, mask: seq<bool>, pk: string)
    requires |rows| == |mask|
    requires forall i, j :: 0 <= i < j < |rows| && mask[i] && mask[j] ==> Get(rows[i], pk) != Get(rows[j], pk)
    ensures DistinctKeys(pk, Keep(rows, mask))
  {
    if rows != [] {
      var n := |rows| - 1;
      var init := Keep(rows[..n], mask[..n]);
      KeepDistinct(rows[..n], mask[..n], pk);
      if mask[n] {
        forall i | 0 <= i < |init| ensures Get(init[i], pk) != Get(rows[n], pk) {
          KeepMember(rows[..n], mask[..n], init[i]);
          assert init[i] in init;
        }
      }
    }
  }

  /** The page's rows before the limit: in scope, beyond the cursor, sorted. */
  lemma Ordering(src: Source, size: nat, backward: bool, b: Bound, db: Db, keys: set<Value>, out: seq<Row>)
    requires Snapshot(src, db, keys) && (b.NoBound? || b.k in keys)
    requires out == AllRows(EdgeQuery(BuildConnection(src, ArgsOf(src, size, backward, b))), NoOuter, db)
    ensures Directed(db.engine, src.pk, if backward then Desc else Asc, out)
    ensures forall r :: r in out <==> r in Rows(db, src.table) && InScope(src, db, r) && Within(db.engine, b, Get(r, src.pk))
  {
    var filter := BuildConnection(src, ArgsOf(src, size, backward, b)).query.filter;
    var rows := Rows(db, src.table);
    var mask := seq(|rows|, i requires 0 <= i < |rows| => Selected(NoOuter, filter, db, rows[i]));
    var matched := Matching(rows, NoOuter, filter, db);
    forall i | 0 <= i < |rows| ensures mask[i] <==> InScope(src, db, rows[i]) && Within(db.engine, b, Get(rows[i], src.pk)) {
      PagePredicate(src, size, backward, b, db, keys, rows[i]);
    }
    KeepDistinct(rows, mask, src.pk);
    forall r ensures r in matched <==> r in rows && InScope(src, db, r) && Within(db.engine, b, Get(r, src.pk)) {
      KeepMember(rows, mask, r);
    }
    forall i | 0 <= i < |matched| ensures Get(matched[i], src.pk) in keys {
      assert matched[i] in matched;
    }
    OrderedByKey(matched, src.pk, if backward then Desc else Asc, db, keys);
  }

  lemma BeyondCursor(src: Source, db: Db, keys: set<Value>, all: seq<Row>, b: Bound, lo: nat, hi: nat, i: nat)
    requires Snapshot(src, db, keys) && IsListing(src, db, all) && Paging.Bounds(src.pk, all, b, lo, hi) && i < |all|
    ensures Within(db.engine, b, Get(all[i], src.pk)) <==> lo <= i < hi
    ensures Get(all[i], src.pk) in keys
  {
    forall j | 0 <= j < |all| ensures Get(all[j], src.pk) in keys {
      assert all[j] in all;
    }
    match b
    case NoBound =>
    case Above(k) =>
      assert i < lo - 1 ==> db.engine.less(Get(all[i], src.pk), Get(all[lo - 1], src.pk));
      assert i > lo - 1 ==> db.engine.less(Get(all[lo - 1], src.pk), Get(all[i], src.pk));
    case Below(k) =>
      assert i < hi ==> db.engine.less(Get(all[i], src.pk), Get(all[hi], src.pk));
      assert i > hi ==> db.engine.less(Get(all[hi], src.pk), Get(all[i], src.pk));
  }

  lemma SliceMembers(src: Source, db: Db, keys: set<Value>, all: seq<Row>, b: Bound, lo: nat, hi: nat, r: Row)
    requires Snapshot(src, db, keys) && IsListing(src, db, all) && Paging.Bounds(src.pk, all, b, lo, hi)
    ensures r in all[lo..hi] <==> r in Rows(db, src.table) && InScope(src, db, r) && Within(db.engine, b, Get(r, src.pk))
  {
    if r in all[lo..hi] {
      var i :| 0 <= i < hi - lo && all[lo..hi][i] == r;
      assert all[lo + i] == r;
      BeyondCursor(src, db, keys, all, b, lo, hi, lo + i);
    }
    if r in all && Within(db.engine, b, Get(r, src.pk)) {
      var i :| 0 <= i < |all| && all[i] == r;
      BeyondCursor(src, db, keys, all, b, lo, hi, i);
      assert all[lo..hi][i - lo] == r;
    }
  }

  lemma SameAscending(src: Source, b: Bound, db: Db, keys: set<Value>, all: seq<Row>, lo: nat, hi: nat, asc: seq<Row>)
    requires Snapshot(src, db, keys) && IsListing(src, db, all) && Paging.Bounds(src.pk, all, b, lo, hi)
    requires Ascending(db.engine, src.pk, asc)
    requires forall r :: r in asc <==> r in Rows(db, src.table) && InScope(src, db, r) && Within(db.engine, b, Get(r, src.pk))
    ensures asc == all[lo..hi]
  {
    forall r ensures r in asc <==> r in all[lo..hi] {
      SliceMembers(src, db, keys, all, b, lo, hi, r);
    }
    AscendingUnique(db.engine, src.pk, asc, all[lo..hi], keys);
  }

  lemma SameDirected(src: Source, backward: bool, b: Bound, db: Db, keys: set<Value>, all: seq<Row>, lo: nat, hi: nat, out: seq<Row>)
    requires Snapshot(src, db, keys) && IsListing(src, db, all) && Paging.Bounds(src.pk, all, b, lo, hi)
    requires Directed(db.engine, src.pk, if backward then Desc else Asc, out)
    requires forall r :: r in out <==> r in Rows(db, src.table) && InScope(src, db, r) && Within(db.engine, b, Get(r, src.pk))
    ensures out == if backward then Reverse(all[lo..hi]) else all[lo..hi]
  {
    if backward {
      forall r ensures r in Reverse(out) <==> r in out {
        ReverseMembers(out, r);
      }
      SameAscending(src, b, db, keys, all, lo, hi, Reverse(out));
      assert Reverse(Reverse(out)) == out;
    } else {
      SameAscending(src, b, db, keys, all, lo, hi, out);
    }
  }

  lemma OrderingIsSlice(src: Source, size: nat, backward: bool, b: Bound, db: Db, keys: set<Value>, all: seq<Row>, lo: nat, hi: nat,
    out: seq<Row>)
    requires Snapshot(src, db, keys) && IsListing(src, db, all) && Paging.Bounds(src.pk, all, b, lo, hi)
    requires out == AllRows(EdgeQuery(BuildConnection(src, ArgsOf(src, size, backward, b))), NoOuter, db)
    ensures out == if backward then Reverse(all[lo..hi]) else all[lo..hi]
  {
    if b.Above? {
      assert all[lo - 1] in all;
    } else if b.Below? {
      assert all[hi] in all;
    }
    Ordering(src, size, backward, b, db, keys, out);
    SameDirected(src, backward, b, db, keys, all, lo, hi, out);
  }

  lemma FetchesOneMore(c: Connection, db: Db)
    requires c.page.Some? && c.page.value.size + 1 < U64 && c.query.offset.None?
    ensures
      var rows := AllRows(EdgeQuery(c), NoOuter, db);
      Fetched(c, db) == if c.page.value.size + 1 <= |rows| then rows[..c.page.value.size + 1] else rows
  {
    assert EdgeQuery(c).limit == Some(c.page.value.size + 1) && EdgeQuery(c).offset == None;
  }

  /** Fetched rows: one more than the page from the proper end of the slice. */
  lemma FetchedSlice(src: Source, size: nat, backward: bool, b: Bound, db: Db, keys: set<Value>, all: seq<Row>, lo: nat, hi: nat)
    requires Snapshot(src, db, keys) && IsListing(src, db, all) && Paging.Bounds(src.pk, all, b, lo, hi)
    requires size + 1 < U64
    ensures
      var rest := if backward then Reverse(all[lo..hi]) else all[lo..hi];
      Fetched(BuildConnection(src, ArgsOf(src, size, backward, b)), db) == if size + 1 <= |rest| then rest[..size + 1] else rest
  {
    var c := BuildConnection(src, ArgsOf(src, size, backward, b));
    OrderingIsSlice(src, size, backward, b, db, keys, all, lo, hi, AllRows(EdgeQuery(c), NoOuter, db));
    assert c.page.Some? && c.page.value.size == size;
    FetchesOneMore(c, db);
  }

  lemma ReverseMembers<T>(xs: seq<T>, x: T)
    ensures x in Reverse(xs) <==> x in xs
  {
    var ys := Reverse(xs);
    if x in xs {
      var i :| 0 <= i < |xs| && xs[i] == x;
      assert ys[|xs| - 1 - i] == x;
    }
  }

  // ----- one reply -----

  /** Trimming and turning round the rows fetched from the proper end of a slice. */
  lemma ShownOfFetched(rest: seq<Row>, page: RelayPage, rows: seq<Row>)
    requires
      var from := if page.backward then Reverse(rest) else rest;
      rows == if page.size + 1 <= |from| then from[..page.size + 1] else from
    ensures Shown(Some(page), rows) ==
      if |rest| <= page.size then rest else if page.backward then rest[|rest| - page.size..] else rest[..page.size]
    ensures HasMore(Some(page), rows) <==> |rest| > page.size
  {
    var cut := if page.size <= |rows| then rows[..page.size] else rows;
    if page.backward {
      assert Reverse(cut) == if |rest| <= page.size then rest else rest[|rest| - page.size..];
    }
  }

  ghost function Reply(src: Source, db: Db, size: nat, backward: bool, b: Bound): Paging.PageReply {
    var c := BuildConnection(src, ArgsOf(src, size, backward, b));
    ReplyOf(c.page, Fetched(c, db), backward)
  }

  /** `ahead` is the flag of the paging direction, `behind` the other one. */
  function ReplyOf(page: Option<RelayPage>, rows: seq<Row>, backward: bool): Paging.PageReply {
    if backward then Page(Shown(page, rows), HasPreviousPage(page, rows), HasNextPage(page, rows))
    else Page(Shown(page, rows), HasNextPage(page, rows), HasPreviousPage(page, rows))
  }

  lemma ReplyOfFetched(all: seq<Row>, lo: nat, hi: nat, page: RelayPage, rows: seq<Row>, b: Bound)
    requires lo <= hi <= |all| && page.hasOtherSide == !b.NoBound?
    requires
      var rest := if page.backward then Reverse(all[lo..hi]) else all[lo..hi];
      rows == if page.size + 1 <= |rest| then rest[..page.size + 1] else rest
    ensures ReplyOf(Some(page), rows, page.backward) == Paging.SliceReply(all, page.size, page.backward, b, lo, hi)
  {
    var rest := all[lo..hi];
    ShownOfFetched(rest, page, rows);
    if |rest| > page.size {
      assert rest[|rest| - page.size..] == all[hi - page.size..hi];
      assert rest[..page.size] == all[lo..lo + page.size];
    }
  }

  /** One reply is a contiguous piece of the listing, and both flags are exact. */
  lemma ReplyIsSlice(src: Source, db: Db, size: nat, backward: bool, b: Bound, keys: set<Value>, all: seq<Row>, lo: nat, hi: nat)
    requires Snapshot(src, db, keys) && IsListing(src, db, all) && Paging.Bounds(src.pk, all, b, lo, hi)
    requires size + 1 < U64 && (backward ==> !b.Above?) && (!backward ==> !b.Below?)
    ensures Reply(src, db, size, backward, b) == Paging.SliceReply(all, size, backward, b, lo, hi)
  {
    FetchedSlice(src, size, backward, b, db, keys, all, lo, hi);
    var c := BuildConnection(src, ArgsOf(src, size, backward, b));
    assert c.page == Some(RelayPage(size, backward, !b.NoBound?));
    ReplyOfFetched(all, lo, hi, c.page.value, Fetched(c, db), b);
  }

  // ----- whole runs -----

  lemma ServesForward(src: Source, db: Db, size: nat, keys: set<Value>, all: seq<Row>, reply: Bound -> PageReply)
    requires Snapshot(src, db, keys) && IsListing(src, db, all) && size + 1 < U64
    requires forall b :: reply(b) == Reply(src, db, size, false, b)
    ensures Paging.ServesForward(reply, src.pk, size, all)
  {
    forall b, lo, hi | Paging.Bounds(src.pk, all, b, lo, hi) && !b.Below?
      ensures reply(b) == SliceReply(all, size, false, b, lo, hi)
    {
      ReplyIsSlice(src, db, size, false, b, keys, all, lo, hi);
    }
  }

  lemma ServesBackward(src: Source, db: Db, size: nat, keys: set<Value>, all: seq<Row>, reply: Bound -> PageReply)
    requires Snapshot(src, db, keys) && IsListing(src, db, all) && size + 1 < U64
    requires forall b :: reply(b) == Reply(src, db, size, true, b)
    ensures Paging.ServesBackward(reply, src.pk, size, all)
  {
    forall b, lo, hi | Paging.Bounds(src.pk, all, b, lo, hi) && !b.Above?
      ensures reply(b) == SliceReply(all, size, true, b, lo, hi)
    {
      ReplyIsSlice(src, db, size, true, b, keys, all, lo, hi);
    }
  }

  /** Following `endCursor` until `hasNextPage` is false delivers every row in
      scope exactly once in key order, each page ascending. */
  lemma ForwardPartition(src: Source, db: Db, size: nat, pages: seq<seq<Row>>, keys: set<Value>, all: seq<Row>, reply: Bound -> PageReply)
    requires Snapshot(src, db, keys) && IsListing(src, db, all) && 1 <= size && size + 1 < U64
    requires forall b :: reply(b) == Reply(src, db, size, false, b)
    requires ForwardRun(reply, src.pk, pages)
    ensures Flatten(pages) == all
    ensures forall k :: 0 <= k < |pages| ==> Ascending(db.engine, src.pk, pages[k])
  {
    ServesForward(src, db, size, keys, all, reply);
    ForwardRunIsListing(reply, src.pk, size, all, pages);
    forall k | 0 <= k < |pages| ensures Ascending(db.engine, src.pk, pages[k]) {
      var lo, hi := ForwardPage(reply, src.pk, size, all, pages, k);
    }
  }

  /** Following `startCursor` backwards until `hasPreviousPage` is false: the
      pages, last one first, are the same listing. */
  lemma BackwardPartition(src: Source, db: Db, size: nat, pages: seq<seq<Row>>, keys: set<Value>, all: seq<Row>, reply: Bound -> PageReply)
    requires Snapshot(src, db, keys) && IsListing(src, db, all) && 1 <= size && size + 1 < U64
    requires forall b :: reply(b) == Reply(src, db, size, true, b)
    requires BackwardRun(reply, src.pk, pages)
    ensures FlattenBack(pages) == all
    ensures forall k :: 0 <= k < |pages| ==> Ascending(db.engine, src.pk, pages[k])
  {
    ServesBackward(src, db, size, keys, all, reply);
    BackwardRunIsListing(reply, src.pk, size, all, pages);
    forall k | 0 <= k < |pages| ensures Ascending(db.engine, src.pk, pages[k]) {
      var lo, hi := BackwardPage(reply, src.pk, size, all, pages, k);
    }
  }

  /** The listing exists: it is the sorted scan of the rows in scope. */
  lemma ListingExists(src: Source, db: Db, keys: set<Value>) returns (all: seq<Row>)
    requires Snapshot(src, db, keys)
    ensures IsListing(src, db, all)
  {
    all := AllRows(EdgeQuery(BuildConnection(src, ArgsOf(src, 0, false, NoBound))), NoOuter, db);
    Ordering(src, 0, false, NoBound, db, keys, all);
  }

  // ----- the permission limit -----

  /** A paged reply stays within the role's permission limit exactly when the
      page size or the number of remaining rows does: the page overwrites the
      limit. */
  lemma PagedWithinLimit(src: Source, db: Db, size: nat, backward: bool, b: Bound, keys: set<Value>, all: seq<Row>, lo: nat, hi: nat,
    limit: nat)
    requires Snapshot(src, db, keys) && IsListing(src, db, all) && Paging.Bounds(src.pk, all, b, lo, hi)
    requires size + 1 < U64 && (backward ==> !b.Above?) && (!backward ==> !b.Below?) && src.permLimit == Some(limit)
    ensures |Reply(src, db, size, backward, b).rows| <= limit <==> size <= limit || hi - lo <= limit
  {
    ReplyIsSlice(src, db, size, backward, b, keys, all, lo, hi);
  }

  /** Without page arguments the limit applies: the reply is the beginning of the
      rows in key order, as long as the limit allows. */
  lemma UnpagedWithinLimit(src: Source, db: Db, after: Option<Value>, before: Option<Value>, limit: nat)
    requires src.permLimit == Some(limit)
    ensures
      var c := BuildConnection(src, PageArgs(None, None, after, before));
      var rows := AllRows(EdgeQuery(c), NoOuter, db);
      Shown(c.page, Fetched(c, db)) == if limit <= |rows| then rows[..limit] else rows
  {
    var c := BuildConnection(src, PageArgs(None, None, after, before));
    assert EdgeQuery(c).limit == Some(limit) && EdgeQuery(c).offset == None;
  }

  /** The input that shows it: two rows, a limit of one, a page of two. */
  lemma OverLimitReply(eng: Engine, t: Table)
    requires eng.less(Num(1), Num(2)) && !eng.less(Num(2), Num(1)) && !eng.less(Num(1), Num(1)) && !eng.less(Num(2), Num(2))
    requires eng.cast(Num(1), "int4") == Num(1) && eng.cast(Num(2), "int4") == Num(2)
    ensures
      var db := Db(map[t := [map["id" := Num(1)], map["id" := Num(2)]]], eng);
      var src := Source(t, "id", "int4", None, None, Some(1), []);
      |Reply(src, db, 2, false, NoBound).rows| == 2
  {
    var all: seq<Row> := [map["id" := Num(1)], map["id" := Num(2)]];
    var db := Db(map[t := all], eng);
    var src := Source(t, "id", "int4", None, None, Some(1), []);
    var keys := {Num(1), Num(2)};
    assert Rows(db, t) == all;
    assert Get(all[0], "id") == Num(1) && Get(all[1], "id") == Num(2);
    assert Snapshot(src, db, keys);
    assert IsListing(src, db, all);
    ReplyIsSlice(src, db, 2, false, NoBound, keys, all, 0, 2);
  }

  /** At the largest page size the fetch limit wraps to zero and nothing is shown. */
  lemma LargestPageIsEmpty(src: Source, db: Db, backward: bool, b: Bound)
    ensures Reply(src, db, U64 - 1, backward, b).rows == []
  {
    assert EdgeQuery(BuildConnection(src, ArgsOf(src, U64 - 1, backward, b))).limit == Some(0);
  }
}
