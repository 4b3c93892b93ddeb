/** How text refers to a session variable, letter by letter. */
module SessionNames {
  import JsonAccess

  function Small(c: char): char {
    if 'A' <= c <= 'Z' then (c as int - 'A' as int + 'a' as int) as char else c
  }

  predicate SameLetters(a: string, b: string) {
    |a| == |b| && forall i :: 0 <= i < |a| ==> Small(a[i]) == Small(b[i])
  }

  /** `x-hasura` at the beginning, in any case. */
  predicate Refers(s: string) {
    |s| >= 8 && SameLetters(s[..8], "x-hasura")
  }

  /** The variable a reference names; variables have lower-case names. */
  ghost predicate Names(s: string, variable: string) {
    |variable| == |s| && forall i :: 0 <= i < |s| ==> variable[i] == Small(s[i])
  }

  lemma {:induction false} RefersSame(s: string)
    ensures JsonAccess.IsSessionRef(s) <==> Refers(s)
  {
    if |s| >= 8 {
      var l, x := JsonAccess.Lower(s[..8]), "x-hasura";
      assert forall i :: 0 <= i < 8 ==> Small(x[i]) == x[i] && l[i] == Small(s[..8][i]);
      if SameLetters(s[..8], x) {
        assert l == x;
      }
    }
  }

  lemma {:induction false} NamesLower(s: string, x: string)
    ensures Names(s, x) <==> x == JsonAccess.Lower(s)
  {
    assert forall i :: 0 <= i < |s| ==> JsonAccess.Lower(s)[i] == Small(s[i]);
    if Names(s, x) {
      assert x == JsonAccess.Lower(s);
    }
  }
}
