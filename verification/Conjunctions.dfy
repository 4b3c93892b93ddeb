/** Lists of predicates that all hold, and what the planner merges them into. */
module Conjunctions {
  import opened Values
  import opened Database
  import opened Ir
  import opened Meaning
  import opened SelectPlan

  ghost predicate AllTrue(es: seq<BoolExp>, db: Db, row: Row) {
    forall i :: 0 <= i < |es| ==> Holds(es[i], db, row, row).True?
  }

  lemma AllTrueSplit(a: seq<BoolExp>, b: seq<BoolExp>, db: Db, row: Row)
    ensures AllTrue(a + b, db, row) <==> AllTrue(a, db, row) && AllTrue(b, db, row)
  {
    assert forall i :: 0 <= i < |a| ==> (a + b)[i] == a[i];
    assert forall i :: 0 <= i < |b| ==> (a + b)[|a| + i] == b[i];
  }

  lemma ListedTrue(e: Option<BoolExp>, db: Db, row: Row)
    ensures AllTrue(AsList(e), db, row) <==> Passes(e, db, row)
  {
    if e.Some? {
      assert AsList(e)[0] == e.value;
    }
  }

  lemma AndIsAllTrue(es: seq<BoolExp>, db: Db, row: Row)
    ensures Holds(And(es), db, row, row).True? <==> AllTrue(es, db, row)
  {
  }

  /** The merged predicate passes a row exactly when all its parts hold. */
  lemma MergeMeaning(ps: seq<BoolExp>, db: Db, row: Row)
    ensures Passes(Merge(ps), db, row) <==> AllTrue(ps, db, row)
  {
    AndIsAllTrue(ps, db, row);
    assert |ps| == 1 ==> (AllTrue(ps, db, row) <==> Holds(ps[0], db, row, row).True?);
  }
}
