/** How many different elements two lists have, position by position. */
module Distinctness {

  /** Equal elements stay equal: nothing is split. */
  ghost predicate Respects<T>(a: seq<T>, b: seq<T>) {
    |a| == |b| && forall i, j :: 0 <= i < |a| && 0 <= j < |a| && a[i] == a[j] ==> b[i] == b[j]
  }

  ghost function Distinct<T>(a: seq<T>): set<T> {
    set t | t in a
  }

  lemma {:induction false} DistinctSnoc<T>(a: seq<T>)
    requires a != []
    ensures Distinct(a) == Distinct(a[..|a| - 1]) + {a[|a| - 1]}
  {
    var n := |a| - 1;
    assert a == a[..n] + [a[n]];
  }

  /** Where nothing is split, there are at most as many distinct elements, and as
      many exactly where nothing is merged. */
  lemma {:induction false} DistinctImage<T>(a: seq<T>, b: seq<T>)
    requires Respects(a, b)
    ensures |Distinct(b)| <= |Distinct(a)|
    ensures |Distinct(b)| == |Distinct(a)| <==> Respects(b, a)
  {
    if a != [] {
      var n := |a| - 1;
      var c, d := a[..n], b[..n];
      assert Respects(c, d);
      DistinctImage(c, d);
      DistinctSnoc(a);
      DistinctSnoc(b);
      if a[n] in c {
        var k :| 0 <= k < n && c[k] == a[n];
        assert a[k] == a[n] && b[k] == b[n] && d[k] == b[n];
        assert Distinct(a) == Distinct(c) && Distinct(b) == Distinct(d);
        RespectsSnoc(d, c, b, a, n, k);
      } else if b[n] in d {
        var k :| 0 <= k < n && d[k] == b[n];
        assert Distinct(b) == Distinct(d);
        assert b[k] == b[n] && a[k] == c[k] && a[k] != a[n];
      } else {
        RespectsNew(d, c, b, a, n);
      }
    }
  }

  /** A last element equal to an earlier one on both sides changes nothing. */
  lemma {:induction false} RespectsSnoc<T>(d: seq<T>, c: seq<T>, b: seq<T>, a: seq<T>, n: nat, k: nat)
    requires |a| == |b| == n + 1 && c == a[..n] && d == b[..n] && k < n && a[k] == a[n] && b[k] == b[n]
    ensures Respects(d, c) <==> Respects(b, a)
  {
    if Respects(d, c) {
      forall i, j | 0 <= i < |b| && 0 <= j < |b| && b[i] == b[j] ensures a[i] == a[j] {
        var i', j' := if i == n then k else i, if j == n then k else j;
        assert d[i'] == d[j'];
      }
    }
    if Respects(b, a) {
      forall i, j | 0 <= i < |d| && 0 <= j < |d| && d[i] == d[j] ensures c[i] == c[j] {
        assert b[i] == b[j];
      }
    }
  }

  /** A new last element on the first side changes nothing. */
  lemma {:induction false} RespectsNew<T>(d: seq<T>, c: seq<T>, b: seq<T>, a: seq<T>, n: nat)
    requires |a| == |b| == n + 1 && c == a[..n] && d == b[..n] && b[n] !in d
    ensures Respects(d, c) <==> Respects(b, a)
  {
    if Respects(d, c) {
      forall i, j | 0 <= i < |b| && 0 <= j < |b| && b[i] == b[j] ensures a[i] == a[j] {
        assert i < n ==> d[i] == b[i];
        assert j < n ==> d[j] == b[j];
      }
    }
    if Respects(b, a) {
      forall i, j | 0 <= i < |d| && 0 <= j < |d| && d[i] == d[j] ensures c[i] == c[j] {
        assert b[i] == b[j];
      }
    }
  }
}
