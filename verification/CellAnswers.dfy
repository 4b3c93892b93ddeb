/** The same for the whole answer, at any depth of relationships and aggregates,
    and for the SQL that computes it. */
module CellAnswers {
  import opened Database
  import opened Planner
  import opened OrderPlan
  import opened SelectPlan
  import opened Meaning
  import opened RoleView
  import opened CellFilters
  import opened CellViews

  /** A count reads readable columns, or reads them as they are shown. */
  ghost predicate ShowsCount(sel: Selection, ctx: TableCtx, p: Two) {
    sel.name == "count" && p.counts.Stored? ==> forall k :: 0 <= k < |sel.args.columns| ==> Readable(ctx, sel.args.columns[k], p.md, p.s)
  }

  /** Every select below reads only shown cells. */
  ghost predicate ShowsSelect(kind: Kind, sel: Selection, ctx: TableCtx, p: Two)
    decreases sel, 3
  {
    ShowsArgs(kind, sel.args, ctx, p.md, p.s) && ShowsOrder(kind, sel.args, ctx, p.md, p.s) &&
    if kind.Aggregation? then ShowsEntries(sel.sub, ctx, p) else ShowsFields(sel.sub, ctx, p)
  }

  ghost predicate ShowsFields(sels: seq<Selection>, ctx: TableCtx, p: Two)
    decreases sels, 2
  {
    forall i :: 0 <= i < |sels| ==> ShowsSelection(sels[i], ctx, p)
  }

  ghost predicate ShowsEntries(sels: seq<Selection>, ctx: TableCtx, p: Two)
    decreases sels, 2
  {
    forall i :: 0 <= i < |sels| ==> ShowsEntry(sels[i], ctx, p)
  }

  ghost predicate ShowsEntry(sel: Selection, ctx: TableCtx, p: Two)
    decreases sel, 4
  {
    (sel.name == "nodes" ==> ShowsFields(sel.sub, ctx, p)) &&
    (sel.name == "aggregate" ==> forall i :: 0 <= i < |sel.sub| ==> ShowsCount(sel.sub[i], ctx, p))
  }

  ghost predicate ShowsSelection(sel: Selection, ctx: TableCtx, p: Two)
    decreases sel, 4
  {
    if sel.name == "__typename" || ColumnAllowed(ctx, sel.name) then true
    else if FindRel(ctx.entry.objectRels, sel.name).Some? then
      var target := FindRel(ctx.entry.objectRels, sel.name).value.target;
      target.Some? && TableCtxOf(p.md, target.value.0, p.s).Some? ==>
        var remote := TableCtxOf(p.md, target.value.0, p.s).value;
        JoinReadable(target.value.1, ctx, remote, p.md, p.s) && ShowsFields(sel.sub, remote, p)
    else
      var (base, aggregate) := ArrayRel(ctx.entry, sel.name);
      var rel := FindRel(ctx.entry.arrayRels, base);
      rel.Some? && rel.value.target.Some? && TableCtxOf(p.md, rel.value.target.value.0, p.s).Some? ==>
        var remote := TableCtxOf(p.md, rel.value.target.value.0, p.s).value;
        JoinReadable(rel.value.target.value.1, ctx, remote, p.md, p.s) &&
        ShowsSelect(if aggregate then Aggregation else List, sel, remote, p)
  }

  lemma {:induction false} FieldAlike(sel: Selection, ctx: TableCtx, p: Two, r1: Row, r2: Row)
    requires ShownAgree(p) && At(ctx, p, r1, r2) && PlanField(sel, ctx, p.md, p.s).Ok? && ShowsSelection(sel, ctx, p)
    ensures SeeField(sel, ctx, One(p), r1) == SeeField(sel, ctx, Other(p), r2)
    decreases sel, 10
  {
    if sel.name == "__typename" || ColumnAllowed(ctx, sel.name) {
    } else if FindRel(ctx.entry.objectRels, sel.name).Some? {
      var target := FindRel(ctx.entry.objectRels, sel.name).value.target.value;
      var remote := TableCtxOf(p.md, target.0, p.s).value;
      OuterOfAlike(target.1, ctx, remote, p, r1, r2);
      ObjectAlike(sel, remote, Outer(target.1, r1), Outer(target.1, r2), p);
    } else {
      var (base, aggregate) := ArrayRel(ctx.entry, sel.name);
      var target := FindRel(ctx.entry.arrayRels, base).value.target.value;
      var remote := TableCtxOf(p.md, target.0, p.s).value;
      OuterOfAlike(target.1, ctx, remote, p, r1, r2);
      SelectAlike(remote, if aggregate then Aggregation else List, sel, Outer(target.1, r1), Outer(target.1, r2), p);
    }
  }

  lemma {:induction false} ObjectAlike(sel: Selection, remote: TableCtx, o1: Outer, o2: Outer, p: Two)
    requires ShownAgree(p) && Has(remote, p) && OuterAlike(o1, o2, remote, p.md, p.s) && o1.Outer? && o2.Outer?
    requires PlanObject(remote, sel, p.md, p.s).Ok? && ShowsFields(sel.sub, remote, p)
    ensures
      var xs, ys := RelatedRows(remote, o1, One(p)), RelatedRows(remote, o2, Other(p));
      (xs == [] <==> ys == []) && (xs != [] ==> SeeRow(sel.sub, remote, One(p), xs[0]) == SeeRow(sel.sub, remote, Other(p), ys[0]))
    decreases sel, 9
  {
    RelatedAlike(remote, o1, o2, p);
    var xs, ys := RelatedRows(remote, o1, One(p)), RelatedRows(remote, o2, Other(p));
    if xs != [] {
      assert AlikeIn(remote, p)(xs[0], ys[0]);
      RowAlike(sel.sub, remote, p, xs[0], ys[0]);
    }
  }

  lemma {:induction false} RowAlike(sels: seq<Selection>, ctx: TableCtx, p: Two, r1: Row, r2: Row)
    requires ShownAgree(p) && At(ctx, p, r1, r2) && PlanFields(sels, ctx, p.md, p.s).Ok? && ShowsFields(sels, ctx, p)
    ensures SeeRow(sels, ctx, One(p), r1) == SeeRow(sels, ctx, Other(p), r2)
    decreases sels, 5
  {
    var a, b := SeePairs(sels, ctx, One(p), r1), SeePairs(sels, ctx, Other(p), r2);
    forall i | 0 <= i < |sels| ensures a[i] == b[i] {
      PlanFieldAt(sels, i, ctx, One(p));
      FieldAlike(sels[i], ctx, p, r1, r2);
    }
    assert a == b;
  }

  lemma {:induction false} RowListAlike(sels: seq<Selection>, ctx: TableCtx, p: Two, xs: seq<Row>, ys: seq<Row>)
    requires ShownAgree(p) && Has(ctx, p) && RowsAlike(ctx, p, xs, ys) && PlanFields(sels, ctx, p.md, p.s).Ok? && ShowsFields(sels, ctx, p)
    ensures SeeRowList(sels, ctx, One(p), xs) == SeeRowList(sels, ctx, Other(p), ys)
    decreases sels, 6
  {
    var a, b := SeeRowList(sels, ctx, One(p), xs), SeeRowList(sels, ctx, Other(p), ys);
    forall i | 0 <= i < |xs| ensures a[i] == b[i] {
      assert AlikeIn(ctx, p)(xs[i], ys[i]);
      RowAlike(sels, ctx, p, xs[i], ys[i]);
    }
    assert a == b;
  }

  // ----- aggregates -----

  lemma {:induction false} CountedAlike(ctx: TableCtx, columns: seq<string>, p: Two, xs: seq<Row>, ys: seq<Row>)
    requires RowsAlike(ctx, p, xs, ys) && ctx.perms != []
    requires forall k :: 0 <= k < |columns| ==> ColumnAllowed(ctx, columns[k]) && (p.counts.Stored? ==> Readable(ctx, columns[k], p.md, p.s))
    ensures CountedTuples(ctx, columns, One(p), xs) == CountedTuples(ctx, columns, Other(p), ys)
  {
    var a, b := CountedTuples(ctx, columns, One(p), xs), CountedTuples(ctx, columns, Other(p), ys);
    forall i | 0 <= i < |xs| ensures a[i] == b[i] {
      assert AlikeIn(ctx, p)(xs[i], ys[i]);
      forall k | 0 <= k < |columns| ensures a[i][k] == b[i][k] {
        if p.counts.Stored? {
          ReadableSame(ctx, columns[k], p, xs[i], ys[i]);
        }
      }
      assert a[i] == b[i];
    }
    assert a == b;
  }

  lemma {:induction false} ShownCellsAlike(ctx: TableCtx, column: string, p: Two, xs: seq<Row>, ys: seq<Row>)
    requires RowsAlike(ctx, p, xs, ys) && ColumnAllowed(ctx, column)
    ensures ShownCells(ctx, column, One(p), xs) == ShownCells(ctx, column, Other(p), ys)
  {
    var a, b := ShownCells(ctx, column, One(p), xs), ShownCells(ctx, column, Other(p), ys);
    forall i | 0 <= i < |xs| ensures a[i] == b[i] {
      assert AlikeIn(ctx, p)(xs[i], ys[i]);
    }
    assert a == b;
  }

  lemma {:induction false} AggregateAlike(sel: Selection, ctx: TableCtx, p: Two, xs: seq<Row>, ys: seq<Row>)
    requires RowsAlike(ctx, p, xs, ys) && ctx.perms != [] && PlanAggregate(sel, ctx, p.md, p.s).Ok? && ShowsCount(sel, ctx, p)
    ensures SeeAggregate(sel, ctx, One(p), xs) == SeeAggregate(sel, ctx, Other(p), ys)
  {
    if sel.name == "count" {
      if sel.args.columns != [] {
        CountedAlike(ctx, sel.args.columns, p, xs, ys);
      }
    } else {
      forall i | 0 <= i < |sel.sub|
        ensures ShownCells(ctx, sel.sub[i].name, One(p), xs) == ShownCells(ctx, sel.sub[i].name, Other(p), ys)
      {
        PlanAggColumnAt(sel.sub, i, ctx, One(p));
        ShownCellsAlike(ctx, sel.sub[i].name, p, xs, ys);
      }
    }
  }

  lemma {:induction false} AggregatesAlike(sels: seq<Selection>, ctx: TableCtx, p: Two, xs: seq<Row>, ys: seq<Row>)
    requires RowsAlike(ctx, p, xs, ys) && ctx.perms != [] && PlanAggregates(sels, ctx, p.md, p.s).Ok?
    requires forall i :: 0 <= i < |sels| ==> ShowsCount(sels[i], ctx, p)
    ensures forall i :: 0 <= i < |sels| ==> SeeAggregate(sels[i], ctx, One(p), xs) == SeeAggregate(sels[i], ctx, Other(p), ys)
  {
    forall i | 0 <= i < |sels| ensures SeeAggregate(sels[i], ctx, One(p), xs) == SeeAggregate(sels[i], ctx, Other(p), ys) {
      PlanAggregateAt(sels, i, ctx, One(p), PlanAggregates(sels, ctx, p.md, p.s).value);
      AggregateAlike(sels[i], ctx, p, xs, ys);
    }
  }

  lemma {:induction false} EntryAlike(sel: Selection, ctx: TableCtx, p: Two, xs: seq<Row>, ys: seq<Row>)
    requires ShownAgree(p) && Has(ctx, p) && RowsAlike(ctx, p, xs, ys) && PlanEntry(sel, ctx, p.md, p.s).Ok? && ShowsEntry(sel, ctx, p)
    ensures SeeEntry(sel, ctx, One(p), xs) == SeeEntry(sel, ctx, Other(p), ys)
    decreases sel, 10
  {
    if sel.name == "aggregate" {
      AggregatesAlike(sel.sub, ctx, p, xs, ys);
    } else if sel.name == "nodes" {
      var cap := PermLimit(ctx.perms);
      var cut := if cap.Some? && cap.value <= |xs| then cap.value else |xs|;
      assert xs[..|xs|] == xs && ys[..|ys|] == ys;
      assert RowsAlike(ctx, p, xs[..cut], ys[..cut]);
      RowListAlike(sel.sub, ctx, p, xs[..cut], ys[..cut]);
    }
  }

  lemma {:induction false} EntriesAlike(sels: seq<Selection>, ctx: TableCtx, p: Two, xs: seq<Row>, ys: seq<Row>)
    requires ShownAgree(p) && Has(ctx, p) && RowsAlike(ctx, p, xs, ys) && PlanEntries(sels, ctx, p.md, p.s).Ok? && ShowsEntries(sels, ctx, p)
    ensures SeeEntries(sels, ctx, One(p), xs) == SeeEntries(sels, ctx, Other(p), ys)
    decreases sels, 7
  {
    var a, b := SeeEntries(sels, ctx, One(p), xs), SeeEntries(sels, ctx, Other(p), ys);
    forall i | 0 <= i < |sels| ensures a[i] == b[i] {
      PlanEntryAt(sels, i, ctx, One(p));
      EntryAlike(sels[i], ctx, p, xs, ys);
    }
    assert a == b;
  }

  /** Main result: what the role is answered depends only on the cells it is shown. */
  lemma {:induction false} SelectAlike(ctx: TableCtx, kind: Kind, sel: Selection, o1: Outer, o2: Outer, p: Two)
    requires ShownAgree(p) && Has(ctx, p) && OuterAlike(o1, o2, ctx, p.md, p.s)
    requires BuildSelect(ctx, kind, sel, p.md, p.s).Ok? && ShowsSelect(kind, sel, ctx, p)
    ensures SeeSelect(ctx, kind, sel, o1, One(p)) == SeeSelect(ctx, kind, sel, o2, Other(p))
    decreases sel, 8
  {
    SeenRowsAlike(ctx, kind, sel.args, o1, o2, p);
    var xs, ys := SeenRows(ctx, kind, sel.args, o1, One(p)), SeenRows(ctx, kind, sel.args, o2, Other(p));
    match kind
    case List => RowListAlike(sel.sub, ctx, p, xs, ys);
    case ByPk =>
      if xs != [] {
        assert AlikeIn(ctx, p)(xs[0], ys[0]);
        RowAlike(sel.sub, ctx, p, xs[0], ys[0]);
      }
    case Aggregation => EntriesAlike(sel.sub, ctx, p, xs, ys);
  }
}
