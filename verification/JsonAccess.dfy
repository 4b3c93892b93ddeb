/** Looking into JSON values, and the spelling of session variables. */
module JsonAccess {
  import opened Values

  /** `value.get(key)` on an object. */
  function Member(v: Value, key: string): (r: Option<Value>)
    ensures r.Some? ==> r.value < v
  {
    if !v.Obj? then None else MemberOf(v, v.fields, key)
  }

  function MemberOf(v: Value, fields: seq<(string, Value)>, key: string): (r: Option<Value>)
    requires v.Obj? && forall i :: 0 <= i < |fields| ==> fields[i] in v.fields
    ensures r.Some? ==> r.value < v
  {
    if fields == [] then None
    else if fields[0].0 == key then
      assert fields[0] in v.fields;
      Some(fields[0].1)
    else MemberOf(v, fields[1..], key)
  }

  function Lower(s: string): string {
    seq(|s|, i requires 0 <= i < |s| => if 'A' <= s[i] <= 'Z' then (s[i] as int + 32) as char else s[i])
  }

  predicate IsSessionRef(s: string) {
    |s| >= 8 && Lower(s[..8]) == "x-hasura"
  }

  predicate HasKey(fields: seq<(string, Value)>, c: string) {
    exists i :: 0 <= i < |fields| && fields[i].0 == c
  }

  function Lookup(fields: seq<(string, Value)>, key: string): Option<Value> {
    if fields == [] then None else if fields[0].0 == key then Some(fields[0].1) else Lookup(fields[1..], key)
  }

  lemma {:induction false} LookupFinds(fields: seq<(string, Value)>, key: string)
    ensures Lookup(fields, key).Some? <==> HasKey(fields, key)
  {
    if fields != [] {
      LookupFinds(fields[1..], key);
      assert forall i :: 1 <= i < |fields| ==> fields[i] == fields[1..][i - 1];
      if HasKey(fields, key) && fields[0].0 != key {
        var i :| 0 <= i < |fields| && fields[i].0 == key;
        assert fields[1..][i - 1].0 == key;
      }
    }
  }
}
