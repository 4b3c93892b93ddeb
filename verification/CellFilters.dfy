/** Filters and orderings at the level of cells: on two databases that agree on
    the rows a role sees and on the cells it is shown, a user's filter or ordering
    that reads only readable columns has the same value. */
module CellFilters {
  import opened Values
  import opened Database
  import opened Ir
  import opened Planner
  import opened SelectPlan
  import opened Meaning
  import opened RootedFilters
  import opened RoleView
  import opened Sifting
  import opened RoleRows

  /** Two databases under one engine, and the role that queries them. */
  datatype Two = Two(md: Metadata, s: Session, eng: Engine, t1: map<Table, seq<Row>>, t2: map<Table, seq<Row>>, stringify: bool,
                     counts: CountReading)

  function One(p: Two): World {
    World(p.md, p.s, Db(p.t1, p.eng), p.stringify, p.counts)
  }

  function Other(p: Two): World {
    World(p.md, p.s, Db(p.t2, p.eng), p.stringify, p.counts)
  }

  function Swapped(p: Two): Two {
    p.(t1 := p.t2, t2 := p.t1)
  }

  // ----- what is shown -----

  ghost predicate CellsAgree(ctx: TableCtx, p: Two, r1: Row, r2: Row) {
    forall c :: ColumnAllowed(ctx, c) ==> ShownCell(ctx, c, One(p), r1) == ShownCell(ctx, c, Other(p), r2)
  }

  /** Two visible rows that show the same cells. */
  ghost predicate Alike(ctx: TableCtx, p: Two, r1: Row, r2: Row) {
    RowVisible(ctx, One(p), r1) && RowVisible(ctx, Other(p), r2) && CellsAgree(ctx, p, r1, r2)
  }

  ghost predicate RowsAlike(ctx: TableCtx, p: Two, xs: seq<Row>, ys: seq<Row>) {
    Pairwise(xs, ys, AlikeIn(ctx, p))
  }

  ghost function AlikeIn(ctx: TableCtx, p: Two): (Row, Row) -> bool {
    (a: Row, b: Row) => Alike(ctx, p, a, b)
  }

  /** The databases show the role the same: in every table it has, the same number
      of rows with the same cells. */
  ghost predicate ShownAgree(p: Two) {
    forall t :: TableCtxOf(p.md, t, p.s).Some? ==> ShownAgreeAt(TableCtxOf(p.md, t, p.s).value, p)
  }

  ghost predicate ShownAgreeAt(ctx: TableCtx, p: Two) {
    RowsAlike(ctx, p, VisibleRows(ctx, One(p)), VisibleRows(ctx, Other(p)))
  }

  lemma {:induction false} AlikeSwaps(ctx: TableCtx, p: Two, r1: Row, r2: Row)
    requires Alike(ctx, p, r1, r2)
    ensures Alike(ctx, Swapped(p), r2, r1)
  {
  }

  lemma {:induction false} AgreeSwaps(p: Two)
    requires ShownAgree(p)
    ensures ShownAgree(Swapped(p))
  {
    forall t | TableCtxOf(p.md, t, p.s).Some? ensures ShownAgreeAt(TableCtxOf(p.md, t, p.s).value, Swapped(p)) {
      var ctx := TableCtxOf(p.md, t, p.s).value;
      assert ShownAgreeAt(ctx, p);
      var xs, ys := VisibleRows(ctx, One(p)), VisibleRows(ctx, Other(p));
      forall i | 0 <= i < |xs| ensures AlikeIn(ctx, Swapped(p))(ys[i], xs[i]) {
        assert AlikeIn(ctx, p)(xs[i], ys[i]);
        AlikeSwaps(ctx, p, xs[i], ys[i]);
      }
    }
  }

  // ----- readable columns -----

  /** Granted, and needing no guard: on visible rows the cell is always shown. */
  predicate Readable(ctx: TableCtx, c: string, md: Metadata, s: Session) {
    ColumnAllowed(ctx, c) && Guard(ctx, c, md, s) == Ok(None)
  }

  lemma {:induction false} ReadableSame(ctx: TableCtx, c: string, p: Two, r1: Row, r2: Row)
    requires Alike(ctx, p, r1, r2) && Readable(ctx, c, p.md, p.s) && ctx.perms != []
    ensures Get(r1, c) == Get(r2, c)
  {
    GuardMeaning(ctx, c, One(p), r1);
    GuardMeaning(ctx, c, Other(p), r2);
  }

  /** Both sides of a join are readable where they are read. */
  predicate JoinReadable(join: Join, ctx: TableCtx, remote: TableCtx, md: Metadata, s: Session) {
    forall k :: 0 <= k < |join| ==> Readable(ctx, join[k].0, md, s) && Readable(remote, join[k].1, md, s)
  }

  lemma {:induction false} JoinedSame(join: Join, ctx: TableCtx, remote: TableCtx, p: Two, a1: Row, a2: Row, b1: Row, b2: Row)
    requires JoinReadable(join, ctx, remote, p.md, p.s) && ctx.perms != [] && remote.perms != []
    requires Alike(ctx, p, a1, a2) && Alike(remote, p, b1, b2)
    ensures Joined(join, a1, b1) == Joined(join, a2, b2)
  {
    forall k | 0 <= k < |join|
      ensures Get(a1, join[k].0) == Get(a2, join[k].0) && Get(b1, join[k].1) == Get(b2, join[k].1)
    {
      ReadableSame(ctx, join[k].0, p, a1, a2);
      ReadableSame(remote, join[k].1, p, b1, b2);
    }
  }

  // ----- filters that read only readable columns -----

  /** A table whose rows the role sees all. */
  ghost predicate OpenAt(t: Table, remote: TableCtx, md: Metadata, s: Session) {
    TableCtxOf(md, t, s) == Some(remote) && CombinedFilter(remote.perms, remote, md, s) == Ok(None)
  }

  ghost predicate ShownOp(op: CompareOp, ctx: TableCtx, root: TableCtx, md: Metadata, s: Session) {
    match op
    case Column(_, c, fromRoot) => Readable(if fromRoot then root else ctx, c, md, s)
    case ColumnRel(_, t, join, c) =>
      TableCtxOf(md, t, s).Some? &&
      var remote := TableCtxOf(md, t, s).value;
      OpenAt(t, remote, md, s) && JoinReadable(join, ctx, remote, md, s) && Readable(remote, c, md, s)
    case _ => true
  }

  ghost predicate ShownExp(e: BoolExp, ctx: TableCtx, root: TableCtx, md: Metadata, s: Session) {
    match e
    case And(es) => forall i :: 0 <= i < |es| ==> ShownExp(es[i], ctx, root, md, s)
    case Or(es) => forall i :: 0 <= i < |es| ==> ShownExp(es[i], ctx, root, md, s)
    case Not(x) => ShownExp(x, ctx, root, md, s)
    case Compare(c, _, op) => Readable(ctx, c, md, s) && ShownOp(op, ctx, root, md, s)
    case Relationship(t, join, p) =>
      TableCtxOf(md, t, s).Some? &&
      var remote := TableCtxOf(md, t, s).value;
      var filter := CombinedFilter(remote.perms, remote, md, s);
      JoinReadable(join, ctx, remote, md, s) && filter.Ok? &&
      if filter.value.None? then ShownExp(p, remote, root, md, s)
      else RootFree(filter.value.value) && p.And? && |p.exps| == 2 && p.exps[1] == filter.value.value &&
           ShownExp(p.exps[0], remote, root, md, s)
    case Exists(t, p) =>
      TableCtxOf(md, t, s).Some? &&
      var remote := TableCtxOf(md, t, s).value;
      OpenAt(t, remote, md, s) && ShownExp(p, remote, remote, md, s)
    case _ => false
  }

  /** Where the filter stands: two alike rows of a table the role has. */
  ghost predicate At(ctx: TableCtx, p: Two, r1: Row, r2: Row) {
    TableCtxOf(p.md, ctx.table, p.s) == Some(ctx) && Alike(ctx, p, r1, r2)
  }

  lemma {:induction false} VisibleMember(ctx: TableCtx, w: World, r: Row)
    ensures r in VisibleRows(ctx, w) <==> r in Rows(w.db, ctx.table) && RowVisible(ctx, w, r)
  {
    SiftMember(Rows(w.db, ctx.table), Sees(ctx, w), r);
  }

  /** A visible row has its counterpart. */
  lemma {:induction false} Counterpart(ctx: TableCtx, p: Two, r1: Row) returns (r2: Row)
    requires ShownAgree(p) && TableCtxOf(p.md, ctx.table, p.s) == Some(ctx)
    requires r1 in Rows(One(p).db, ctx.table) && RowVisible(ctx, One(p), r1)
    ensures At(ctx, p, r1, r2) && r2 in Rows(Other(p).db, ctx.table)
  {
    assert ShownAgreeAt(ctx, p);
    VisibleMember(ctx, One(p), r1);
    var xs, ys := VisibleRows(ctx, One(p)), VisibleRows(ctx, Other(p));
    var i :| 0 <= i < |xs| && xs[i] == r1;
    r2 := ys[i];
    assert AlikeIn(ctx, p)(xs[i], ys[i]) && r2 in ys;
    VisibleMember(ctx, Other(p), r2);
  }

  /** In an open table every row is visible. */
  lemma {:induction false} OpenVisible(t: Table, remote: TableCtx, w: World)
    requires OpenAt(t, remote, w.md, w.s)
    ensures VisibleRows(remote, w) == Rows(w.db, t)
  {
    forall r ensures RowVisible(remote, w, r) {
      CombinedFilterMeaning(remote.perms, remote, w, r);
    }
    SiftAll(Rows(w.db, t), Sees(remote, w));
  }

  /** Of two related lists sifted alike, the first rows agree where related rows do. */
  lemma {:induction false} FirstSame(xs: seq<Row>, ys: seq<Row>, rel: (Row, Row) -> bool, q1: Row -> bool, q2: Row -> bool, c: string)
    requires Pairwise(xs, ys, rel) && forall i :: 0 <= i < |xs| ==> q1(xs[i]) == q2(ys[i])
    requires forall a, b :: rel(a, b) ==> Get(a, c) == Get(b, c)
    ensures FirstColumn(Sift(xs, q1), c) == FirstColumn(Sift(ys, q2), c)
  {
    SiftRelated(xs, ys, rel, q1, q2);
    if Sift(xs, q1) != [] {
      assert rel(Sift(xs, q1)[0], Sift(ys, q2)[0]);
    }
  }

  lemma {:induction false} JoinedIsSift(db: Db, t: Table, join: Join, r: Row)
    ensures JoinedRows(db, t, join, r) == Sift(Rows(db, t), (x: Row) => Joined(join, r, x))
  {
    var rows := Rows(db, t);
    KeepIsSift(rows, seq(|rows|, i requires 0 <= i < |rows| => Joined(join, r, rows[i])), (x: Row) => Joined(join, r, x));
  }

  lemma {:induction false} RelatedColumnSame(t: Table, join: Join, c: string, ctx: TableCtx, remote: TableCtx, p: Two, r1: Row, r2: Row)
    requires ShownAgree(p) && At(ctx, p, r1, r2) && OpenAt(t, remote, p.md, p.s)
    requires JoinReadable(join, ctx, remote, p.md, p.s) && Readable(remote, c, p.md, p.s)
    ensures FirstColumn(JoinedRows(One(p).db, t, join, r1), c) == FirstColumn(JoinedRows(Other(p).db, t, join, r2), c)
  {
    OpenVisible(t, remote, One(p));
    OpenVisible(t, remote, Other(p));
    assert ShownAgreeAt(remote, p);
    var xs, ys := Rows(One(p).db, t), Rows(Other(p).db, t);
    forall i | 0 <= i < |xs| ensures Joined(join, r1, xs[i]) == Joined(join, r2, ys[i]) {
      assert AlikeIn(remote, p)(xs[i], ys[i]);
      JoinedSame(join, ctx, remote, p, r1, r2, xs[i], ys[i]);
    }
    forall a, b | AlikeIn(remote, p)(a, b) ensures Get(a, c) == Get(b, c) {
      ReadableSame(remote, c, p, a, b);
    }
    JoinedIsSift(One(p).db, t, join, r1);
    JoinedIsSift(Other(p).db, t, join, r2);
    FirstSame(xs, ys, AlikeIn(remote, p), (x: Row) => Joined(join, r1, x), (y: Row) => Joined(join, r2, y), c);
  }

  lemma {:induction false} CompareTruthSame(op: CompareOp, ty: string, l: Value, db1: Db, db2: Db, r1: Row, r2: Row, root1: Row, root2: Row)
    requires db1.engine == db2.engine
    requires op.Column? ==> Get(if op.fromRoot then root1 else r1, op.column) == Get(if op.fromRoot then root2 else r2, op.column)
    requires op.ColumnRel? ==>
      FirstColumn(JoinedRows(db1, op.table, op.join, r1), op.column) == FirstColumn(JoinedRows(db2, op.table, op.join, r2), op.column)
    ensures CompareTruth(op, ty, l, db1, r1, root1) == CompareTruth(op, ty, l, db2, r2, root2)
  {
  }

  lemma {:induction false} OperandSame(op: CompareOp, ctx: TableCtx, root: TableCtx, p: Two, r1: Row, r2: Row, root1: Row, root2: Row)
    requires ShownAgree(p) && ShownOp(op, ctx, root, p.md, p.s) && At(ctx, p, r1, r2) && At(root, p, root1, root2)
    ensures op.Column? ==> Get(if op.fromRoot then root1 else r1, op.column) == Get(if op.fromRoot then root2 else r2, op.column)
    ensures op.ColumnRel? ==>
      FirstColumn(JoinedRows(One(p).db, op.table, op.join, r1), op.column) == FirstColumn(JoinedRows(Other(p).db, op.table, op.join, r2), op.column)
  {
    if op.Column? {
      if op.fromRoot {
        ReadableSame(root, op.column, p, root1, root2);
      } else {
        ReadableSame(ctx, op.column, p, r1, r2);
      }
    } else if op.ColumnRel? {
      RelatedColumnSame(op.table, op.join, op.column, ctx, TableCtxOf(p.md, op.table, p.s).value, p, r1, r2);
    }
  }

  lemma {:induction false} CompareSame(e: BoolExp, ctx: TableCtx, root: TableCtx, p: Two, r1: Row, r2: Row, root1: Row, root2: Row)
    requires e.Compare? && ShownAgree(p) && ShownExp(e, ctx, root, p.md, p.s) && At(ctx, p, r1, r2) && At(root, p, root1, root2)
    ensures Holds(e, One(p).db, r1, root1) == Holds(e, Other(p).db, r2, root2)
  {
    ReadableSame(ctx, e.column, p, r1, r2);
    OperandSame(e.op, ctx, root, p, r1, r2, root1, root2);
    CompareTruthSame(e.op, e.pgType, Get(r1, e.column), One(p).db, Other(p).db, r1, r2, root1, root2);
  }

  lemma {:induction false} ListSame(es: seq<BoolExp>, ctx: TableCtx, root: TableCtx, p: Two, r1: Row, r2: Row, root1: Row, root2: Row)
    requires ShownAgree(p) && At(ctx, p, r1, r2) && At(root, p, root1, root2)
    requires forall i :: 0 <= i < |es| ==> ShownExp(es[i], ctx, root, p.md, p.s)
    ensures forall i :: 0 <= i < |es| ==> Holds(es[i], One(p).db, r1, root1) == Holds(es[i], Other(p).db, r2, root2)
    decreases es, 2
  {
    forall i | 0 <= i < |es| ensures Holds(es[i], One(p).db, r1, root1) == Holds(es[i], Other(p).db, r2, root2) {
      FilterSame(es[i], ctx, root, p, r1, r2, root1, root2);
    }
  }

  lemma {:induction false} ConnectiveSame(e: BoolExp, d1: Db, d2: Db, r1: Row, r2: Row, root1: Row, root2: Row)
    requires e.And? || e.Or?
    requires forall i :: 0 <= i < |e.exps| ==> Holds(e.exps[i], d1, r1, root1) == Holds(e.exps[i], d2, r2, root2)
    ensures Holds(e, d1, r1, root1) == Holds(e, d2, r2, root2)
  {
  }

  /** Main result for filters. */
  lemma {:induction false} FilterSame(e: BoolExp, ctx: TableCtx, root: TableCtx, p: Two, r1: Row, r2: Row, root1: Row, root2: Row)
    requires ShownAgree(p) && ShownExp(e, ctx, root, p.md, p.s) && At(ctx, p, r1, r2) && At(root, p, root1, root2)
    ensures Holds(e, One(p).db, r1, root1) == Holds(e, Other(p).db, r2, root2)
    decreases e, 1
  {
    match e
    case And(es) =>
      ListSame(es, ctx, root, p, r1, r2, root1, root2);
      ConnectiveSame(e, One(p).db, Other(p).db, r1, r2, root1, root2);
    case Or(es) =>
      ListSame(es, ctx, root, p, r1, r2, root1, root2);
      ConnectiveSame(e, One(p).db, Other(p).db, r1, r2, root1, root2);
    case Not(x) => FilterSame(x, ctx, root, p, r1, r2, root1, root2);
    case Compare(_, _, _) => CompareSame(e, ctx, root, p, r1, r2, root1, root2);
    case Relationship(_, _, _) =>
      AgreeSwaps(p);
      RelatedOneWay(e, ctx, root, p, r1, r2, root1, root2);
      RelatedOneWay(e, ctx, root, Swapped(p), r2, r1, root2, root1);
    case Exists(_, _) =>
      AgreeSwaps(p);
      ExistsOneWay(e, p);
      ExistsOneWay(e, Swapped(p));
  }

  /** A visible row that passes a filter has a counterpart that does. */
  lemma {:induction false} InnerRowSame(inner: BoolExp, remote: TableCtx, root: TableCtx, p: Two, root1: Row, root2: Row, x1: Row)
    returns (x2: Row)
    requires ShownAgree(p) && ShownExp(inner, remote, root, p.md, p.s) && At(root, p, root1, root2)
    requires TableCtxOf(p.md, remote.table, p.s) == Some(remote)
    requires x1 in Rows(One(p).db, remote.table) && RowVisible(remote, One(p), x1) && Holds(inner, One(p).db, x1, root1).True?
    ensures x2 in Rows(Other(p).db, remote.table) && At(remote, p, x1, x2) && Holds(inner, Other(p).db, x2, root2).True?
    decreases inner, 2
  {
    x2 := Counterpart(remote, p, x1);
    FilterSame(inner, remote, root, p, x1, x2, root1, root2);
  }

  /** What a planned relationship predicate is made of. */
  ghost predicate IsGuarded(whole: BoolExp, inner: BoolExp, filter: Option<BoolExp>, remote: TableCtx, md: Metadata, s: Session) {
    CombinedFilter(remote.perms, remote, md, s) == Ok(filter) && (filter.Some? ==> RootFree(filter.value)) &&
    whole == if filter.None? then inner else And([inner, filter.value])
  }

  lemma {:induction false} RelatedParts(e: BoolExp, ctx: TableCtx, root: TableCtx, md: Metadata, s: Session)
    returns (inner: BoolExp, filter: Option<BoolExp>)
    requires e.Relationship? && ShownExp(e, ctx, root, md, s)
    ensures
      var remote := TableCtxOf(md, e.table, s).value;
      IsGuarded(e.filter, inner, filter, remote, md, s) && ShownExp(inner, remote, root, md, s) && JoinReadable(e.join, ctx, remote, md, s)
    ensures inner == e.filter || (e.filter.And? && |e.filter.exps| == 2 && inner == e.filter.exps[0])
  {
    var remote := TableCtxOf(md, e.table, s).value;
    filter := CombinedFilter(remote.perms, remote, md, s).value;
    inner := if filter.None? then e.filter else e.filter.exps[0];
    assert filter.Some? ==> e.filter == And([inner, filter.value]);
  }

  /** A related row that passes has a counterpart that passes. */
  lemma {:induction false} RelatedRowSame(e: BoolExp, ctx: TableCtx, root: TableCtx, p: Two, r1: Row, r2: Row, root1: Row, root2: Row, x1: Row)
    returns (x2: Row)
    requires e.Relationship? && ShownAgree(p) && ShownExp(e, ctx, root, p.md, p.s) && At(ctx, p, r1, r2) && At(root, p, root1, root2)
    requires x1 in Rows(One(p).db, e.table) && Joined(e.join, r1, x1) && Holds(e.filter, One(p).db, x1, root1).True?
    ensures x2 in Rows(Other(p).db, e.table) && Joined(e.join, r2, x2) && Holds(e.filter, Other(p).db, x2, root2).True?
    decreases e, 0, 0
  {
    var remote := TableCtxOf(p.md, e.table, p.s).value;
    var inner, filter := RelatedParts(e, ctx, root, p.md, p.s);
    RelatedRowTrue(inner, filter, e.filter, remote, One(p), x1, root1);
    x2 := InnerRowSame(inner, remote, root, p, root1, root2, x1);
    RelatedRowTrue(inner, filter, e.filter, remote, Other(p), x2, root2);
    JoinedSame(e.join, ctx, remote, p, r1, r2, x1, x2);
  }

  lemma {:induction false} RelatedOneWay(e: BoolExp, ctx: TableCtx, root: TableCtx, p: Two, r1: Row, r2: Row, root1: Row, root2: Row)
    requires e.Relationship? && ShownAgree(p) && ShownExp(e, ctx, root, p.md, p.s) && At(ctx, p, r1, r2) && At(root, p, root1, root2)
    ensures SomeRelated(e.filter, e.join, r1, Rows(One(p).db, e.table), One(p).db, root1) ==>
            SomeRelated(e.filter, e.join, r2, Rows(Other(p).db, e.table), Other(p).db, root2)
    decreases e, 0, 1
  {
    var rows1, rows2 := Rows(One(p).db, e.table), Rows(Other(p).db, e.table);
    if SomeRelated(e.filter, e.join, r1, rows1, One(p).db, root1) {
      var i :| 0 <= i < |rows1| && Joined(e.join, r1, rows1[i]) && Holds(e.filter, One(p).db, rows1[i], root1).True?;
      var x2 := RelatedRowSame(e, ctx, root, p, r1, r2, root1, root2, rows1[i]);
      var j :| 0 <= j < |rows2| && rows2[j] == x2;
      assert Joined(e.join, r2, rows2[j]) && Holds(e.filter, Other(p).db, rows2[j], root2).True?;
    }
  }

  lemma {:induction false} ExistsOneWay(e: BoolExp, p: Two)
    requires e.Exists? && ShownAgree(p) && TableCtxOf(p.md, e.table, p.s).Some?
    requires
      var remote := TableCtxOf(p.md, e.table, p.s).value;
      OpenAt(e.table, remote, p.md, p.s) && ShownExp(e.filter, remote, remote, p.md, p.s)
    ensures SomeOwn(e.filter, Rows(One(p).db, e.table), One(p).db) ==> SomeOwn(e.filter, Rows(Other(p).db, e.table), Other(p).db)
    decreases e, 0
  {
    var remote := TableCtxOf(p.md, e.table, p.s).value;
    var rows1, rows2 := Rows(One(p).db, e.table), Rows(Other(p).db, e.table);
    if SomeOwn(e.filter, rows1, One(p).db) {
      var i :| 0 <= i < |rows1| && Holds(e.filter, One(p).db, rows1[i], rows1[i]).True?;
      CombinedFilterMeaning(remote.perms, remote, One(p), rows1[i]);
      var x2 := Counterpart(remote, p, rows1[i]);
      FilterSame(e.filter, remote, remote, p, rows1[i], x2, rows1[i], x2);
      var j :| 0 <= j < |rows2| && rows2[j] == x2;
      assert Holds(e.filter, Other(p).db, rows2[j], rows2[j]).True?;
    }
  }
}
