/** Lists of keys and values that keep their insertion order. */
module Entries {
  import opened Values

  /** `map.insert(key, v)`: a repeated key keeps its place. */
  function Put<T>(entries: seq<(string, T)>, key: string, v: T): seq<(string, T)> {
    if entries == [] then [(key, v)]
    else if entries[0].0 == key then [(key, v)] + entries[1..]
    else [entries[0]] + Put(entries[1..], key, v)
  }

  // ----- first entries -----

  ghost predicate IsFirst<T(!new)>(entries: seq<(string, T)>, key: string, i: int) {
    0 <= i < |entries| && entries[i].0 == key && forall j :: 0 <= j < i ==> entries[j].0 != key
  }

  /** The value of the first entry with that key. */
  ghost function First<T(!new)>(entries: seq<(string, T)>, key: string): (r: Option<T>)
    ensures r.Some? ==> exists i :: IsFirst(entries, key, i) && entries[i] == (key, r.value)
    ensures r.None? ==> forall i :: 0 <= i < |entries| ==> entries[i].0 != key
  {
    if exists i :: IsFirst(entries, key, i) then
      var i :| IsFirst(entries, key, i);
      Some(entries[i].1)
    else
      NoFirst(entries, key, |entries|);
      None
  }

  lemma {:induction false} NoFirst<T(!new)>(entries: seq<(string, T)>, key: string, n: nat)
    requires (forall i :: !IsFirst(entries, key, i)) && n <= |entries|
    ensures forall i :: 0 <= i < n ==> entries[i].0 != key
  {
    if n > 0 {
      NoFirst(entries, key, n - 1);
      assert !IsFirst(entries, key, n - 1);
    }
  }

  lemma {:induction false} FirstIs<T(!new)>(entries: seq<(string, T)>, key: string, i: nat)
    requires IsFirst(entries, key, i)
    ensures First(entries, key) == Some(entries[i].1)
  {
    assert First(entries, key).Some?;
    var j :| IsFirst(entries, key, j) && entries[j] == (key, First(entries, key).value);
    FirstUnique(entries, key, i, j);
  }

  lemma {:induction false} FirstUnique<T(!new)>(entries: seq<(string, T)>, key: string, i: int, j: int)
    requires IsFirst(entries, key, i) && IsFirst(entries, key, j)
    ensures i == j
  {
  }

  lemma {:induction false} FirstOfRest<T(!new)>(entries: seq<(string, T)>, key: string)
    requires entries != []
    ensures First(entries, key) == if entries[0].0 == key then Some(entries[0].1) else First(entries[1..], key)
  {
    var rest := entries[1..];
    if entries[0].0 == key {
      FirstIs(entries, key, 0);
    } else if First(rest, key).Some? {
      var i :| IsFirst(rest, key, i) && rest[i] == (key, First(rest, key).value);
      assert IsFirst(entries, key, i + 1) by {
        assert forall j :: 1 <= j < |entries| ==> entries[j] == rest[j - 1];
      }
      FirstIs(entries, key, i + 1);
    } else {
      assert forall j :: 1 <= j < |entries| ==> entries[j] == rest[j - 1];
    }
  }
}
