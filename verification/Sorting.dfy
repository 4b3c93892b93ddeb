/** What ORDER BY over several keys promises: no row stands before one that has to
    come earlier. */
module Sorting {
  import opened Values
  import opened Database

  predicate KeysIn(keys: seq<Value>, vs: set<Value>) {
    forall i :: 0 <= i < |keys| ==> keys[i].Null? || keys[i] in vs
  }

  lemma {:induction false} KeyTotal(eng: Engine, spec: SortSpec, x: Value, y: Value, vs: set<Value>)
    requires TotalOn(eng, vs) && (x.Null? || x in vs) && (y.Null? || y in vs)
    ensures x == y || KeyBefore(eng, spec, x, y) || KeyBefore(eng, spec, y, x)
    ensures !(KeyBefore(eng, spec, x, y) && KeyBefore(eng, spec, y, x))
  {
  }

  lemma {:induction false} KeyTrans(eng: Engine, spec: SortSpec, x: Value, y: Value, z: Value, vs: set<Value>)
    requires TotalOn(eng, vs) && (x.Null? || x in vs) && (y.Null? || y in vs) && (z.Null? || z in vs)
    requires KeyBefore(eng, spec, x, y) && KeyBefore(eng, spec, y, z)
    ensures KeyBefore(eng, spec, x, z)
  {
  }

  lemma {:induction false} BeforeTotal(eng: Engine, specs: seq<SortSpec>, a: seq<Value>, b: seq<Value>, k: nat, vs: set<Value>)
    requires |a| == |b| == |specs| && k <= |specs| && TotalOn(eng, vs) && KeysIn(a, vs) && KeysIn(b, vs)
    ensures a[k..] == b[k..] || Before(eng, specs, a, b, k) || Before(eng, specs, b, a, k)
    ensures !(Before(eng, specs, a, b, k) && Before(eng, specs, b, a, k))
    decreases |specs| - k
  {
    if k < |specs| {
      if a[k] == b[k] {
        BeforeTotal(eng, specs, a, b, k + 1, vs);
        assert a[k..] == [a[k]] + a[k + 1..] && b[k..] == [b[k]] + b[k + 1..];
      } else {
        KeyTotal(eng, specs[k], a[k], b[k], vs);
      }
    }
  }

  lemma {:induction false} BeforeTrans(eng: Engine, specs: seq<SortSpec>, a: seq<Value>, b: seq<Value>, c: seq<Value>, k: nat, vs: set<Value>)
    requires |a| == |b| == |c| == |specs| && k <= |specs| && TotalOn(eng, vs) && KeysIn(a, vs) && KeysIn(b, vs) && KeysIn(c, vs)
    requires Before(eng, specs, a, b, k) && Before(eng, specs, b, c, k)
    ensures Before(eng, specs, a, c, k)
    decreases |specs| - k
  {
    if a[k] == b[k] == c[k] {
      BeforeTrans(eng, specs, a, b, c, k + 1, vs);
    } else if a[k] != b[k] && b[k] != c[k] {
      KeyTrans(eng, specs[k], a[k], b[k], c[k], vs);
      KeyTotal(eng, specs[k], a[k], b[k], vs);
    }
  }

  /** Nothing stands before something that comes strictly earlier. */
  ghost predicate InOrder(eng: Engine, specs: seq<SortSpec>, xs: seq<Keyed>)
    requires Uniform(xs, |specs|)
  {
    forall i, j :: 0 <= i < j < |xs| ==> !Before(eng, specs, xs[j].keys, xs[i].keys)
  }

  ghost predicate AllKeysIn(xs: seq<Keyed>, vs: set<Value>) {
    forall i :: 0 <= i < |xs| ==> KeysIn(xs[i].keys, vs)
  }

  lemma {:induction false} InsertWithin(eng: Engine, specs: seq<SortSpec>, x: Keyed, xs: seq<Keyed>, vs: set<Value>)
    requires |x.keys| == |specs| && Uniform(xs, |specs|) && AllKeysIn(xs, vs) && KeysIn(x.keys, vs)
    ensures AllKeysIn(Insert(eng, specs, x, xs), vs)
    ensures forall y :: y in Insert(eng, specs, x, xs) ==> y == x || y in xs
  {
    if xs != [] {
      InsertWithin(eng, specs, x, xs[..|xs| - 1], vs);
    }
  }

  lemma {:induction false} InsertInOrder(eng: Engine, specs: seq<SortSpec>, x: Keyed, xs: seq<Keyed>, vs: set<Value>)
    requires |x.keys| == |specs| && Uniform(xs, |specs|) && TotalOn(eng, vs) && AllKeysIn(xs, vs) && KeysIn(x.keys, vs)
    requires InOrder(eng, specs, xs)
    ensures InOrder(eng, specs, Insert(eng, specs, x, xs))
  {
    if xs != [] {
      var n := |xs| - 1;
      var last := xs[n];
      if Before(eng, specs, x.keys, last.keys) {
        var init := Insert(eng, specs, x, xs[..n]);
        InsertInOrder(eng, specs, x, xs[..n], vs);
        InsertWithin(eng, specs, x, xs[..n], vs);
        forall i | 0 <= i < |init| ensures !Before(eng, specs, last.keys, init[i].keys) {
          assert init[i] in init;
          BeforeTotal(eng, specs, x.keys, last.keys, 0, vs);
        }
      } else {
        forall i | 0 <= i < |xs| ensures !Before(eng, specs, x.keys, xs[i].keys) {
          NotBeforeTrans(eng, specs, x.keys, last.keys, xs[i].keys, vs);
        }
      }
    }
  }

  /** Not earlier than something that is itself not earlier than a third. */
  lemma {:induction false} NotBeforeTrans(eng: Engine, specs: seq<SortSpec>, a: seq<Value>, b: seq<Value>, c: seq<Value>, vs: set<Value>)
    requires |a| == |b| == |c| == |specs| && TotalOn(eng, vs) && KeysIn(a, vs) && KeysIn(b, vs) && KeysIn(c, vs)
    requires !Before(eng, specs, a, b) && (!Before(eng, specs, b, c) || b == c)
    ensures !Before(eng, specs, a, c)
  {
    assert b[0..] == b && c[0..] == c;
    BeforeTotal(eng, specs, b, c, 0, vs);
    if Before(eng, specs, a, c) && Before(eng, specs, c, b) {
      BeforeTrans(eng, specs, a, c, b, 0, vs);
    }
  }

  /** Main result: sorting puts the rows in order. */
  lemma {:induction false} SortInOrder(eng: Engine, specs: seq<SortSpec>, xs: seq<Keyed>, vs: set<Value>)
    requires Uniform(xs, |specs|) && TotalOn(eng, vs) && AllKeysIn(xs, vs)
    ensures InOrder(eng, specs, Sort(eng, specs, xs)) && AllKeysIn(Sort(eng, specs, xs), vs)
  {
    if xs != [] {
      var n := |xs| - 1;
      SortInOrder(eng, specs, xs[..n], vs);
      InsertInOrder(eng, specs, xs[n], Sort(eng, specs, xs[..n]), vs);
      InsertWithin(eng, specs, xs[n], Sort(eng, specs, xs[..n]), vs);
    }
  }
}
