/** The whole answer at the level of cells: on two databases that show the role
    the same rows with the same cells, a selection whose filters, orderings,
    joins and counts read only readable columns is answered with the same JSON. */
module CellViews {
  import opened Values
  import opened Database
  import opened Ir
  import opened Planner
  import opened OrderPlan
  import opened SelectPlan
  import opened Meaning
  import opened Sifting
  import opened RoleView
  import opened RoleRows
  import opened CellFilters
  import opened ShownFilters

  // ----- rows -----

  ghost predicate ShowsArgs(kind: Kind, args: Args, ctx: TableCtx, md: Metadata, s: Session) {
    if kind.ByPk? then forall i :: 0 <= i < |args.pk| ==> Readable(ctx, args.pk[i].0, md, s)
    else args.where.Some? ==> ShowsFilter(args.where.value, ctx, ctx, md, s)
  }

  lemma {:induction false} KeysShown(ctx: TableCtx, pk: seq<(string, Value)>, md: Metadata, s: Session)
    requires (forall i :: 0 <= i < |pk| ==> Readable(ctx, pk[i].0, md, s)) && PkPredicates(ctx, pk).Ok?
    ensures
      var es := PkPredicates(ctx, pk).value;
      forall i :: 0 <= i < |es| ==> ShownExp(es[i], ctx, ctx, md, s)
  {
  }

  lemma {:induction false} UserShown(ctx: TableCtx, kind: Kind, args: Args, md: Metadata, s: Session)
    requires ShowsArgs(kind, args, ctx, md, s) && UserWhere(ctx, kind, args, md, s).Ok?
    ensures
      var es := UserWhere(ctx, kind, args, md, s).value;
      forall i :: 0 <= i < |es| ==> ShownExp(es[i], ctx, ctx, md, s)
  {
    if kind.ByPk? {
      KeysShown(ctx, args.pk, md, s);
    } else if args.where.Some? {
      ParseShown(args.where.value, ctx, ctx, md, s);
    }
  }

  /** A filter on shown cells wants both of two alike rows or neither. */
  lemma {:induction false} WantedAlike(ctx: TableCtx, kind: Kind, args: Args, p: Two, r1: Row, r2: Row)
    requires ShownAgree(p) && ShowsArgs(kind, args, ctx, p.md, p.s) && At(ctx, p, r1, r2)
    ensures Wanted(ctx, kind, args, One(p), r1) == Wanted(ctx, kind, args, Other(p), r2)
  {
    if UserWhere(ctx, kind, args, p.md, p.s).Ok? {
      UserShown(ctx, kind, args, p.md, p.s);
      ListSame(UserWhere(ctx, kind, args, p.md, p.s).value, ctx, ctx, p, r1, r2, r1, r2);
    }
  }

  /** Enclosing rows that join alike. */
  ghost predicate OuterAlike(a: Outer, b: Outer, ctx: TableCtx, md: Metadata, s: Session) {
    if a.NoOuter? then b.NoOuter?
    else b.Outer? && a.join == b.join && forall k :: 0 <= k < |a.join| ==>
      Get(a.row, a.join[k].0) == Get(b.row, a.join[k].0) && Readable(ctx, a.join[k].1, md, s)
  }

  lemma {:induction false} JoinedToAlike(a: Outer, b: Outer, ctx: TableCtx, p: Two, r1: Row, r2: Row)
    requires OuterAlike(a, b, ctx, p.md, p.s) && Alike(ctx, p, r1, r2) && ctx.perms != []
    ensures JoinedTo(a)(r1) == JoinedTo(b)(r2)
  {
    if a.Outer? {
      forall k | 0 <= k < |a.join| ensures Get(r1, a.join[k].1) == Get(r2, a.join[k].1) {
        ReadableSame(ctx, a.join[k].1, p, r1, r2);
      }
    }
  }

  lemma {:induction false} OuterOfAlike(join: Join, ctx: TableCtx, remote: TableCtx, p: Two, r1: Row, r2: Row)
    requires JoinReadable(join, ctx, remote, p.md, p.s) && Alike(ctx, p, r1, r2) && ctx.perms != []
    ensures OuterAlike(Outer(join, r1), Outer(join, r2), remote, p.md, p.s)
  {
    forall k | 0 <= k < |join| ensures Get(r1, join[k].0) == Get(r2, join[k].0) {
      ReadableSame(ctx, join[k].0, p, r1, r2);
    }
  }

  ghost predicate Has(ctx: TableCtx, p: Two) {
    TableCtxOf(p.md, ctx.table, p.s) == Some(ctx)
  }

  /** Visible rows sifted by properties that agree on alike rows are alike. */
  lemma {:induction false} SiftedAlike(ctx: TableCtx, p: Two, q1: Row -> bool, q2: Row -> bool)
    requires ShownAgree(p) && Has(ctx, p)
    requires forall a, b :: AlikeIn(ctx, p)(a, b) ==> q1(a) == q2(b)
    ensures RowsAlike(ctx, p, Sift(VisibleRows(ctx, One(p)), q1), Sift(VisibleRows(ctx, Other(p)), q2))
  {
    assert ShownAgreeAt(ctx, p);
    var xs, ys := VisibleRows(ctx, One(p)), VisibleRows(ctx, Other(p));
    assert forall i :: 0 <= i < |xs| ==> AlikeIn(ctx, p)(xs[i], ys[i]);
    SiftRelated(xs, ys, AlikeIn(ctx, p), q1, q2);
  }

  /** The rows of a select are alike. */
  lemma {:induction false} IncludedAlike(ctx: TableCtx, kind: Kind, args: Args, o1: Outer, o2: Outer, p: Two)
    requires ShownAgree(p) && Has(ctx, p) && ShowsArgs(kind, args, ctx, p.md, p.s) && OuterAlike(o1, o2, ctx, p.md, p.s)
    ensures RowsAlike(ctx, p, IncludedRows(ctx, kind, args, o1, One(p)), IncludedRows(ctx, kind, args, o2, Other(p)))
  {
    var q1, q2 := Asks(ctx, kind, args, o1, One(p)), Asks(ctx, kind, args, o2, Other(p));
    forall a, b | AlikeIn(ctx, p)(a, b) ensures q1(a) == q2(b) {
      WantedAlike(ctx, kind, args, p, a, b);
      JoinedToAlike(o1, o2, ctx, p, a, b);
    }
    IncludedOfVisible(ctx, kind, args, o1, One(p));
    IncludedOfVisible(ctx, kind, args, o2, Other(p));
    SiftedAlike(ctx, p, q1, q2);
  }

  lemma {:induction false} RelatedAlike(ctx: TableCtx, o1: Outer, o2: Outer, p: Two)
    requires ShownAgree(p) && Has(ctx, p) && OuterAlike(o1, o2, ctx, p.md, p.s) && o1.Outer? && o2.Outer?
    ensures RowsAlike(ctx, p, RelatedRows(ctx, o1, One(p)), RelatedRows(ctx, o2, Other(p)))
  {
    forall a, b | AlikeIn(ctx, p)(a, b) ensures JoinedTo(o1)(a) == JoinedTo(o2)(b) {
      JoinedToAlike(o1, o2, ctx, p, a, b);
    }
    RelatedOfVisible(ctx, o1, One(p));
    RelatedOfVisible(ctx, o2, Other(p));
    SiftedAlike(ctx, p, JoinedTo(o1), JoinedTo(o2));
  }

  // ----- ordering -----

  /** An ordering that reads only readable columns. */
  ghost predicate ShowsTarget(target: OrderTarget, ctx: TableCtx, md: Metadata, s: Session) {
    match target
    case ByColumn(c) => Readable(ctx, c, md, s)
    case ByRelated(t, join, c, _) =>
      TableCtxOf(md, t, s).Some? &&
      var remote := TableCtxOf(md, t, s).value;
      JoinReadable(join, ctx, remote, md, s) && Readable(remote, c, md, s)
    case ByAggregate(t, join, _, over, _) =>
      TableCtxOf(md, t, s).Some? &&
      var remote := TableCtxOf(md, t, s).value;
      JoinReadable(join, ctx, remote, md, s) && (over.Some? ==> Readable(remote, over.value, md, s))
  }

  /** What `order_by` asks for, as the planner reads it. */
  ghost predicate ShowsOrder(kind: Kind, args: Args, ctx: TableCtx, md: Metadata, s: Session) {
    EveryTarget(UserOrder(ctx, kind, args, md, s), target => ShowsTarget(target, ctx, md, s))
  }

  lemma {:induction false} MatchingAlike(remote: TableCtx, o1: Outer, o2: Outer, filter: Option<BoolExp>, p: Two)
    requires ShownAgree(p) && Has(remote, p) && OuterAlike(o1, o2, remote, p.md, p.s)
    requires CombinedFilter(remote.perms, remote, p.md, p.s) == Ok(filter)
    ensures RowsAlike(remote, p, Matching(Rows(One(p).db, remote.table), o1, filter, One(p).db),
              Matching(Rows(Other(p).db, remote.table), o2, filter, Other(p).db))
  {
    forall a, b | AlikeIn(remote, p)(a, b) ensures JoinedTo(o1)(a) == JoinedTo(o2)(b) {
      JoinedToAlike(o1, o2, remote, p, a, b);
    }
    MatchingOfVisible(remote, o1, filter, One(p));
    MatchingOfVisible(remote, o2, filter, Other(p));
    SiftedAlike(remote, p, JoinedTo(o1), JoinedTo(o2));
  }

  lemma {:induction false} ColumnAlike(ctx: TableCtx, c: string, p: Two, xs: seq<Row>, ys: seq<Row>)
    requires RowsAlike(ctx, p, xs, ys) && Readable(ctx, c, p.md, p.s) && ctx.perms != []
    ensures ColumnOf(xs, c) == ColumnOf(ys, c) && FirstColumn(xs, c) == FirstColumn(ys, c)
  {
    forall i | 0 <= i < |xs| ensures Get(xs[i], c) == Get(ys[i], c) {
      assert AlikeIn(ctx, p)(xs[i], ys[i]);
      ReadableSame(ctx, c, p, xs[i], ys[i]);
    }
  }

  lemma {:induction false} OrderKeyAlike(target: OrderTarget, ctx: TableCtx, p: Two, r1: Row, r2: Row)
    requires ShownAgree(p) && At(ctx, p, r1, r2) && Planned(target, ctx, p.md, p.s) && ShowsTarget(target, ctx, p.md, p.s)
    ensures OrderKey(target, r1, One(p).db) == OrderKey(target, r2, Other(p).db)
  {
    if target.ByColumn? {
      ReadableSame(ctx, target.column, p, r1, r2);
    } else {
      var remote := TableCtxOf(p.md, target.table, p.s).value;
      OuterOfAlike(target.join, ctx, remote, p, r1, r2);
      MatchingAlike(remote, Outer(target.join, r1), Outer(target.join, r2), target.filter, p);
      RelatedKeyAlike(target, remote, p, r1, r2);
    }
  }

  lemma {:induction false} RelatedKeyAlike(target: OrderTarget, remote: TableCtx, p: Two, r1: Row, r2: Row)
    requires !target.ByColumn? && remote.perms != []
    requires RowsAlike(remote, p, Matching(Rows(One(p).db, target.table), Outer(target.join, r1), target.filter, One(p).db),
               Matching(Rows(Other(p).db, target.table), Outer(target.join, r2), target.filter, Other(p).db))
    requires target.ByRelated? ==> Readable(remote, target.column, p.md, p.s)
    requires target.ByAggregate? && target.over.Some? ==> Readable(remote, target.over.value, p.md, p.s)
    ensures OrderKey(target, r1, One(p).db) == OrderKey(target, r2, Other(p).db)
  {
    var xs := Matching(Rows(One(p).db, target.table), Outer(target.join, r1), target.filter, One(p).db);
    var ys := Matching(Rows(Other(p).db, target.table), Outer(target.join, r2), target.filter, Other(p).db);
    if target.ByRelated? {
      ColumnAlike(remote, target.column, p, xs, ys);
    } else if target.over.Some? {
      ColumnAlike(remote, target.over.value, p, xs, ys);
    }
  }

  lemma {:induction false} OrderKeysAlike(order: seq<OrderBy>, ctx: TableCtx, p: Two, r1: Row, r2: Row)
    requires ShownAgree(p) && At(ctx, p, r1, r2)
    requires forall i :: 0 <= i < |order| ==> Planned(order[i].target, ctx, p.md, p.s) && ShowsTarget(order[i].target, ctx, p.md, p.s)
    ensures OrderKeys(order, r1, One(p).db) == OrderKeys(order, r2, Other(p).db)
  {
    forall i | 0 <= i < |order| ensures OrderKey(order[i].target, r1, One(p).db) == OrderKey(order[i].target, r2, Other(p).db) {
      OrderKeyAlike(order[i].target, ctx, p, r1, r2);
    }
  }

  /** Alike rows are put in the same order. */
  lemma {:induction false} OrderedAlike(order: seq<OrderBy>, ctx: TableCtx, p: Two, xs: seq<Row>, ys: seq<Row>)
    requires ShownAgree(p) && Has(ctx, p) && RowsAlike(ctx, p, xs, ys)
    requires forall i :: 0 <= i < |order| ==> Planned(order[i].target, ctx, p.md, p.s) && ShowsTarget(order[i].target, ctx, p.md, p.s)
    ensures RowsAlike(ctx, p, Ordered(xs, order, One(p).db), Ordered(ys, order, Other(p).db))
  {
    var k1 := seq(|xs|, i requires 0 <= i < |xs| => OrderKeys(order, xs[i], One(p).db));
    var k2 := seq(|ys|, i requires 0 <= i < |ys| => OrderKeys(order, ys[i], Other(p).db));
    forall i | 0 <= i < |xs| ensures k1[i] == k2[i] {
      assert AlikeIn(ctx, p)(xs[i], ys[i]);
      OrderKeysAlike(order, ctx, p, xs[i], ys[i]);
    }
    SortRowsRelated(p.eng, Specs(order), xs, ys, k1, k2, AlikeIn(ctx, p));
  }

  lemma {:induction false} OrderAskedShown(ctx: TableCtx, kind: Kind, args: Args, p: Two)
    requires ShowsOrder(kind, args, ctx, p.md, p.s)
    ensures
      var order := OrderAsked(ctx, kind, args, One(p));
      order == OrderAsked(ctx, kind, args, Other(p)) &&
      forall i :: 0 <= i < |order| ==> Planned(order[i].target, ctx, p.md, p.s) && ShowsTarget(order[i].target, ctx, p.md, p.s)
  {
    if !kind.ByPk? && args.orderBy.Some? && ParseOrderBy(args.orderBy.value, ctx, p.md, p.s).Ok? {
      OrderByPlanned(args.orderBy.value, ctx, p.md, p.s);
    }
  }

  /** Main result for rows: filtered, ordered and cut, they are pairwise alike. */
  lemma {:induction false} SeenRowsAlike(ctx: TableCtx, kind: Kind, args: Args, o1: Outer, o2: Outer, p: Two)
    requires ShownAgree(p) && Has(ctx, p) && OuterAlike(o1, o2, ctx, p.md, p.s)
    requires ShowsArgs(kind, args, ctx, p.md, p.s) && ShowsOrder(kind, args, ctx, p.md, p.s)
    ensures RowsAlike(ctx, p, SeenRows(ctx, kind, args, o1, One(p)), SeenRows(ctx, kind, args, o2, Other(p)))
  {
    IncludedAlike(ctx, kind, args, o1, o2, p);
    if !kind.ByPk? {
      var xs, ys := IncludedRows(ctx, kind, args, o1, One(p)), IncludedRows(ctx, kind, args, o2, Other(p));
      var order := OrderAsked(ctx, kind, args, One(p));
      OrderAskedShown(ctx, kind, args, p);
      OrderedAlike(order, ctx, p, xs, ys);
      SliceRelated(Ordered(xs, order, One(p).db), Ordered(ys, order, Other(p).db),
        if kind.List? then Smaller(args.limit, PermLimit(ctx.perms)) else args.limit, args.offset, AlikeIn(ctx, p));
    }
  }
}
