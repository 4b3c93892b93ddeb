/** Where the planner reads cells that the role is not shown: `count` over
    columns, and user filters (for those see `HiddenReads`). With the input that
    shows it and the exact condition under which counting is as if hidden cells
    were NULL. */
module HiddenCells {
  import opened Values
  import opened Database
  import opened Ir
  import opened Planner
  import opened SelectPlan
  import opened Meaning
  import opened FilterJson
  import opened RoleView
  import opened Distinctness

  // ----- counting one column -----

  /** One-column tuples, some of them replaced by NULL. */
  ghost predicate Masked(a: seq<seq<Value>>, b: seq<seq<Value>>) {
    |a| == |b| && forall i :: 0 <= i < |a| ==> |a[i]| == 1 && (b[i] == a[i] || b[i] == [Null])
  }

  lemma {:induction false} MaskedCount(a: seq<seq<Value>>, b: seq<seq<Value>>)
    requires Masked(a, b)
    ensures |NonNull(b)| <= |NonNull(a)|
    ensures |NonNull(b)| == |NonNull(a)| <==> a == b
  {
    if a != [] {
      var n := |a| - 1;
      MaskedCount(a[..n], b[..n]);
      assert a == a[..n] + [a[n]] && b == b[..n] + [b[n]];
      assert a[n] == [a[n][0]] && b[n] == [b[n][0]];
      assert a == b <==> a[..n] == b[..n] && a[n] == b[n];
    }
  }

  lemma {:induction false} NonNullMember(a: seq<seq<Value>>, t: seq<Value>)
    requires forall i :: 0 <= i < |a| ==> |a[i]| == 1
    ensures t in NonNull(a) <==> t in a && t != [Null]
  {
    if a != [] {
      var n := |a| - 1;
      NonNullMember(a[..n], t);
      assert a == a[..n] + [a[n]];
    }
  }

  lemma SubsetCards(small: set<seq<Value>>, large: set<seq<Value>>)
    requires small <= large
    ensures |small| == |large| <==> small == large
  {
    if |small| == |large| && small != large {
      var x :| x in large && x !in small;
      assert small <= large - {x};
      SubsetSmaller(small, large - {x});
    }
  }

  lemma SubsetSmaller(small: set<seq<Value>>, large: set<seq<Value>>)
    requires small <= large
    ensures |small| <= |large|
  {
    if small != {} {
      var x :| x in small;
      SubsetSmaller(small - {x}, large - {x});
    }
  }

  lemma MaskedDistinctCount(a: seq<seq<Value>>, b: seq<seq<Value>>)
    requires Masked(a, b)
    ensures |(set t | t in NonNull(b))| == |(set t | t in NonNull(a))| <==>
            forall i :: 0 <= i < |a| && a[i] != [Null] ==> a[i] in b
  {
    var small, large := set t | t in NonNull(b), set t | t in NonNull(a);
    forall t ensures (t in small <==> t in b && t != [Null]) && (t in large <==> t in a && t != [Null]) {
      NonNullMember(a, t);
      NonNullMember(b, t);
    }
    forall t | t in small ensures t in large {
      var i :| 0 <= i < |b| && b[i] == t;
      assert a[i] == t;
    }
    SubsetCards(small, large);
    if small == large {
      forall i | 0 <= i < |a| && a[i] != [Null] ensures a[i] in b {
        assert a[i] in large;
      }
    }
  }

  lemma OneColumnMasked(ctx: TableCtx, column: string, w: World, rows: seq<Row>)
    requires w.counts.Shown?
    ensures Masked(StoredTuples([column], rows), CountedTuples(ctx, [column], w, rows))
  {
  }

  lemma CountOfOne(distinct: bool, tuples: seq<seq<Value>>)
    requires forall i :: 0 <= i < |tuples| ==> |tuples[i]| == 1
    ensures CountTuples(distinct, tuples) == if distinct then |(set t | t in NonNull(tuples))| else |NonNull(tuples)|
  {
  }

  /** A count of one column is the count of the shown cells exactly when every
      cell it counts is shown or NULL anyway. */
  lemma CountShownExact(ctx: TableCtx, column: string, w: World, rows: seq<Row>)
    requires w.counts.Shown?
    ensures AggregateJson(Count(false, [column]), rows, w.db) == SeeCount(ctx, false, [column], w, rows) <==>
            forall i :: 0 <= i < |rows| ==> CellShown(ctx, column, w, rows[i]) || Get(rows[i], column).Null?
  {
    var a, b := StoredTuples([column], rows), CountedTuples(ctx, [column], w, rows);
    PlannedCount(false, [column], rows, w.db);
    OneColumnMasked(ctx, column, w, rows);
    CountOfOne(false, a);
    CountOfOne(false, b);
    MaskedCount(a, b);
    forall i | 0 <= i < |rows| ensures a[i] == b[i] <==> CellShown(ctx, column, w, rows[i]) || Get(rows[i], column).Null? {
      assert a[i] == [Get(rows[i], column)] && b[i] == [ShownCell(ctx, column, w, rows[i])];
    }
    assert a == b <==> forall i :: 0 <= i < |rows| ==> a[i] == b[i];
  }

  ghost predicate ShownSomewhere(ctx: TableCtx, column: string, w: World, rows: seq<Row>, v: Value) {
    exists j :: 0 <= j < |rows| && CellShown(ctx, column, w, rows[j]) && Get(rows[j], column) == v
  }

  /** A distinct count of one column is right exactly when every hidden value is
      also shown in some other row. */
  lemma {:induction false} DistinctCountShownExact(ctx: TableCtx, column: string, w: World, rows: seq<Row>)
    requires w.counts.Shown?
    ensures AggregateJson(Count(true, [column]), rows, w.db) == SeeCount(ctx, true, [column], w, rows) <==>
            forall i :: 0 <= i < |rows| && !Get(rows[i], column).Null? ==> ShownSomewhere(ctx, column, w, rows, Get(rows[i], column))
  {
    var a, b := StoredTuples([column], rows), CountedTuples(ctx, [column], w, rows);
    PlannedCount(true, [column], rows, w.db);
    OneColumnMasked(ctx, column, w, rows);
    CountOfOne(true, a);
    CountOfOne(true, b);
    MaskedDistinctCount(a, b);
    HiddenValuesShown(ctx, column, w, rows, a, b);
  }

  lemma {:induction false} HiddenValuesShown(ctx: TableCtx, column: string, w: World, rows: seq<Row>, a: seq<seq<Value>>, b: seq<seq<Value>>)
    requires w.counts.Shown? && a == StoredTuples([column], rows) && b == CountedTuples(ctx, [column], w, rows)
    ensures forall i :: 0 <= i < |rows| ==> (a[i] != [Null] <==> !Get(rows[i], column).Null?)
    ensures forall i :: 0 <= i < |rows| && !Get(rows[i], column).Null? ==>
      (a[i] in b <==> ShownSomewhere(ctx, column, w, rows, Get(rows[i], column)))
  {
    assert forall i :: 0 <= i < |rows| ==> a[i] == [Get(rows[i], column)] && b[i] == [ShownCell(ctx, column, w, rows[i])];
    forall i | 0 <= i < |rows| && !Get(rows[i], column).Null?
      ensures a[i] in b <==> ShownSomewhere(ctx, column, w, rows, Get(rows[i], column))
    {
      ShownElsewhere(ctx, column, w, rows, Get(rows[i], column), b);
    }
  }

  lemma ShownElsewhere(ctx: TableCtx, column: string, w: World, rows: seq<Row>, v: Value, b: seq<seq<Value>>)
    requires |b| == |rows| && (forall i :: 0 <= i < |rows| ==> b[i] == [ShownCell(ctx, column, w, rows[i])]) && !v.Null?
    ensures [v] in b <==> ShownSomewhere(ctx, column, w, rows, v)
  {
    if [v] in b {
      var j :| 0 <= j < |b| && b[j] == [v];
      assert b[j][0] == v && CellShown(ctx, column, w, rows[j]);
    }
    if j :| 0 <= j < |rows| && CellShown(ctx, column, w, rows[j]) && Get(rows[j], column) == v {
      assert b[j] == [v];
    }
  }

  /** Over several columns a plain count counts every row, hidden cells or not. */
  lemma WideCountIsRows(ctx: TableCtx, columns: seq<string>, w: World, rows: seq<Row>)
    requires |columns| >= 2
    ensures AggregateJson(Count(false, columns), rows, w.db) == SeeCount(ctx, false, columns, w, rows) == Num(|rows|)
  {
    PlannedCount(false, columns, rows, w.db);
  }

  // ----- counting distinct tuples -----

  /** A distinct count over several columns. If rows with the same stored tuple
      are always shown the same, the shown tuples are no more than the stored
      ones, and the count is right exactly when different stored tuples are never
      shown the same. If it is the other way round, so is the result. */
  lemma {:induction false} WideDistinctCountExact(ctx: TableCtx, columns: seq<string>, w: World, rows: seq<Row>)
    requires |columns| >= 2
    ensures
      var stored, shown := StoredTuples(columns, rows), CountedTuples(ctx, columns, w, rows);
      var right := AggregateJson(Count(true, columns), rows, w.db) == SeeCount(ctx, true, columns, w, rows);
      (Respects(stored, shown) ==> (right <==> Respects(shown, stored))) &&
      (Respects(shown, stored) ==> (right <==> Respects(stored, shown)))
  {
    var stored, shown := StoredTuples(columns, rows), CountedTuples(ctx, columns, w, rows);
    PlannedCount(true, columns, rows, w.db);
    WideDistinct(columns, stored);
    WideDistinct(columns, shown);
    if Respects(stored, shown) {
      DistinctImage(stored, shown);
    }
    if Respects(shown, stored) {
      DistinctImage(shown, stored);
    }
  }

  lemma {:induction false} WideDistinct(columns: seq<string>, tuples: seq<seq<Value>>)
    requires |columns| >= 2 && forall i :: 0 <= i < |tuples| ==> |tuples[i]| == |columns|
    ensures CountTuples(true, tuples) == |Distinct(tuples)|
  {
  }

  // ----- the input that shows it -----

  /** Two parents: one grants `column` where it is NULL, the other grants nothing
      of it but sees every row. */
  function HalfGranted(column: string, other: string): seq<SelectPermission> {
    [SelectPermission(Listed([column]), Obj([(column, Obj([("_is_null", Bool(true))]))]), None, true),
     SelectPermission(Listed([other]), Null, None, true)]
  }

  lemma IsNullParses(column: string, ctx: TableCtx, md: Metadata, s: Session)
    requires PlainKey(column) && column in ctx.entry.columns
    ensures ParseBool(Obj([(column, Obj([("_is_null", Bool(true))]))]), ctx, md, s, true) ==
            Ok(Compare(column, ctx.entry.columns[column], IsNull(true)))
  {
    SingleConjunct(column, Obj([("_is_null", Bool(true))]), ctx, md, s, true);
    assert ScalarOp("_is_null").None? && ColumnOperator("_is_null").None? && JsonOp("_is_null").None?;
    SingleOp("_is_null", Bool(true), ctx, md, s, true, IsNull(true));
  }

  /** Such a role is shown NULL in a row whose value `count` nevertheless counts. */
  lemma HiddenCellIsCounted(table: Table, entry: TableEntry, column: string, other: string, w: World, row: Row)
    requires w.counts.Shown? && PlainKey(column) && column in entry.columns && column != other && !Get(row, column).Null?
    ensures
      var ctx := TableCtx(table, entry, HalfGranted(column, other));
      RowVisible(ctx, w, row) && ShownCell(ctx, column, w, row) == Null &&
      AggregateJson(Count(false, [column]), [row], w.db) != SeeCount(ctx, false, [column], w, [row])
  {
    var perms := HalfGranted(column, other);
    var ctx := TableCtx(table, entry, perms);
    IsNullParses(column, ctx.(perms := []), w.md, w.s);
    assert Unrestricted(perms[1]) && PassesPermission(ctx.perms[1], ctx, w, row);
    assert !PassesPermission(ctx.perms[0], ctx, w, row);
    assert !Grants(ctx.perms[1], column);
    assert !CellShown(ctx, column, w, row);
    CountShownExact(ctx, column, w, [row]);
    assert [row][0] == row;
  }

  /** A filter on a column reads the stored cell, shown or not: which rows such a
      role gets depends on values it is shown as NULL. */
  lemma WhereReadsHiddenCell(ctx: TableCtx, column: string, v: Value, args: Args, w: World, row: Row)
    requires PlainKey(column) && ColumnAllowed(ctx, column)
    requires args.where == Some(Obj([(column, Obj([("_eq", v)]))]))
    ensures Wanted(ctx, List, args, w, row) <==>
            EvalBin(w.db.engine, Eq, Get(row, column), LitValue(w.db.engine, v, ctx.entry.columns[column])).True?
  {
    SingleConjunct(column, Obj([("_eq", v)]), ctx, w.md, w.s, false);
    assert ScalarOp("_eq") == Some(Eq) && OpName("_eq") == "_eq";
    SingleOp("_eq", v, ctx, w.md, w.s, false, Bin(Eq, v));
    var e := Compare(column, ctx.entry.columns[column], Bin(Eq, v));
    assert UserWhere(ctx, List, args, w.md, w.s) == Ok([e]);
    assert forall i :: 0 <= i < 1 ==> [e][i] == e;
  }
}
