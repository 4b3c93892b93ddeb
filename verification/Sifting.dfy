/** Keeping the rows that have a property, in order. */
module Sifting {
  import opened Values
  import opened Database

  ghost function Sift(rows: seq<Row>, q: Row -> bool): seq<Row> {
    if rows == [] then []
    else
      var init := Sift(rows[..|rows| - 1], q);
      if q(rows[|rows| - 1]) then init + [rows[|rows| - 1]] else init
  }

  lemma {:induction false} KeepIsSift(rows: seq<Row>, mask: seq<bool>, q: Row -> bool)
    requires |mask| == |rows| && forall i :: 0 <= i < |rows| ==> mask[i] == q(rows[i])
    ensures Keep(rows, mask) == Sift(rows, q)
  {
    if rows != [] {
      var n := |rows| - 1;
      KeepIsSift(rows[..n], mask[..n], q);
    }
  }

  lemma {:induction false} SiftTwice(rows: seq<Row>, p: Row -> bool, q: Row -> bool, both: Row -> bool)
    requires forall r :: both(r) <==> p(r) && q(r)
    ensures Sift(Sift(rows, p), q) == Sift(rows, both)
  {
    if rows != [] {
      var n := |rows| - 1;
      SiftTwice(rows[..n], p, q, both);
      var init := Sift(rows[..n], p);
      if p(rows[n]) {
        assert (init + [rows[n]])[..|init|] == init;
      }
    }
  }

  lemma {:induction false} SiftMember(rows: seq<Row>, q: Row -> bool, r: Row)
    ensures r in Sift(rows, q) <==> r in rows && q(r)
  {
    if rows != [] {
      var n := |rows| - 1;
      SiftMember(rows[..n], q, r);
      assert rows == rows[..n] + [rows[n]];
    }
  }

  lemma {:induction false} SiftAll(rows: seq<Row>, q: Row -> bool)
    requires forall i :: 0 <= i < |rows| ==> q(rows[i])
    ensures Sift(rows, q) == rows
  {
    if rows != [] {
      var n := |rows| - 1;
      SiftAll(rows[..n], q);
      assert rows[..n] + [rows[n]] == rows;
    }
  }

  // ----- two lists of rows, pairwise related -----

  ghost predicate Pairwise(xs: seq<Row>, ys: seq<Row>, rel: (Row, Row) -> bool) {
    |xs| == |ys| && forall i :: 0 <= i < |xs| ==> rel(xs[i], ys[i])
  }

  lemma {:induction false} SiftRelated(xs: seq<Row>, ys: seq<Row>, rel: (Row, Row) -> bool, q1: Row -> bool, q2: Row -> bool)
    requires Pairwise(xs, ys, rel) && forall i :: 0 <= i < |xs| ==> q1(xs[i]) == q2(ys[i])
    ensures Pairwise(Sift(xs, q1), Sift(ys, q2), rel)
  {
    if xs != [] {
      var n := |xs| - 1;
      SiftRelated(xs[..n], ys[..n], rel, q1, q2);
    }
  }

  ghost predicate KeyedRelated(xs: seq<Keyed>, ys: seq<Keyed>, rel: (Row, Row) -> bool) {
    |xs| == |ys| && forall i :: 0 <= i < |xs| ==> xs[i].keys == ys[i].keys && rel(xs[i].row, ys[i].row)
  }

  /** Sorting by equal keys moves related rows alike. */
  lemma {:induction false} InsertRelated(eng: Engine, specs: seq<SortSpec>, x: Keyed, y: Keyed, xs: seq<Keyed>, ys: seq<Keyed>,
    rel: (Row, Row) -> bool)
    requires |x.keys| == |specs| && Uniform(xs, |specs|) && Uniform(ys, |specs|)
    requires x.keys == y.keys && rel(x.row, y.row) && KeyedRelated(xs, ys, rel)
    ensures KeyedRelated(Insert(eng, specs, x, xs), Insert(eng, specs, y, ys), rel)
  {
    if xs != [] {
      var n := |xs| - 1;
      InsertRelated(eng, specs, x, y, xs[..n], ys[..n], rel);
    }
  }

  lemma {:induction false} SortRelated(eng: Engine, specs: seq<SortSpec>, xs: seq<Keyed>, ys: seq<Keyed>, rel: (Row, Row) -> bool)
    requires Uniform(xs, |specs|) && Uniform(ys, |specs|) && KeyedRelated(xs, ys, rel)
    ensures KeyedRelated(Sort(eng, specs, xs), Sort(eng, specs, ys), rel)
  {
    if xs != [] {
      var n := |xs| - 1;
      SortRelated(eng, specs, xs[..n], ys[..n], rel);
      InsertRelated(eng, specs, xs[n], ys[n], Sort(eng, specs, xs[..n]), Sort(eng, specs, ys[..n]), rel);
    }
  }

  lemma {:induction false} SortRowsRelated(eng: Engine, specs: seq<SortSpec>, xs: seq<Row>, ys: seq<Row>, k1: seq<seq<Value>>,
    k2: seq<seq<Value>>, rel: (Row, Row) -> bool)
    requires Pairwise(xs, ys, rel) && |k1| == |xs| && k1 == k2 && forall i :: 0 <= i < |k1| ==> |k1[i]| == |specs|
    ensures Pairwise(SortRows(eng, specs, xs, k1), SortRows(eng, specs, ys, k2), rel)
  {
    SortRelated(eng, specs, seq(|xs|, i requires 0 <= i < |xs| => Keyed(k1[i], xs[i])),
      seq(|ys|, i requires 0 <= i < |ys| => Keyed(k2[i], ys[i])), rel);
  }

  lemma {:induction false} SliceRelated(xs: seq<Row>, ys: seq<Row>, limit: Option<nat>, offset: Option<nat>, rel: (Row, Row) -> bool)
    requires Pairwise(xs, ys, rel)
    ensures Pairwise(Slice(xs, limit, offset), Slice(ys, limit, offset), rel)
  {
  }
}
