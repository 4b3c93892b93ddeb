/** The pre-parse depth guard (crates/server gql.rs): one saturating scan over
    the bytes of a query decides a property of all its substrings. */
module DepthGuard {

  type Byte = b: nat | b < 256

  const MAX_QUERY_DEPTH: nat := 100

  /** `{`, `(`, `[` open; `}`, `)`, `]` close. */
  function Weight(b: Byte): int {
    if b == 123 || b == 40 || b == 91 then 1
    else if b == 125 || b == 41 || b == 93 then -1
    else 0
  }

  /** Opening minus closing brackets. */
  function Net(s: seq<Byte>): int {
    if s == [] then 0 else Net(s[..|s| - 1]) + Weight(s[|s| - 1])
  }

  lemma {:induction false} NetSuffixStep(s: seq<Byte>, i: nat, b: Byte)
    requires i <= |s|
    ensures Net((s + [b])[i..]) == Net(s[i..]) + Weight(b)
  {
    assert (s + [b])[i..] == s[i..] + [b];
    assert (s[i..] + [b])[..|s| - i] == s[i..];
  }

  /** `depth` is the largest net depth of a suffix of `s`. */
  ghost predicate LargestSuffix(s: seq<Byte>, depth: nat) {
    (exists i :: 0 <= i <= |s| && Net(s[i..]) == depth) && forall i :: 0 <= i <= |s| ==> Net(s[i..]) <= depth
  }

  /** `max` is the largest net depth of any substring of `s`. */
  ghost predicate LargestSubstring(s: seq<Byte>, max: nat) {
    (exists i, j :: 0 <= i <= j <= |s| && Net(s[i..j]) == max) &&
    forall i, j :: 0 <= i <= j <= |s| ==> Net(s[i..j]) <= max
  }

  function Saturating(depth: nat, w: int): nat {
    if depth + w < 0 then 0 else depth + w
  }

  lemma SuffixStep(s: seq<Byte>, depth: nat, b: Byte)
    requires LargestSuffix(s, depth) && -1 <= Weight(b) <= 1
    ensures LargestSuffix(s + [b], Saturating(depth, Weight(b)))
  {
    var t, next := s + [b], Saturating(depth, Weight(b));
    forall i | 0 <= i <= |t| ensures Net(t[i..]) <= next {
      if i <= |s| {
        NetSuffixStep(s, i, b);
      } else {
        assert t[i..] == [];
      }
    }
    var k :| 0 <= k <= |s| && Net(s[k..]) == depth;
    NetSuffixStep(s, k, b);
    var best := if depth + Weight(b) < 0 then |t| else k;
    assert t[|t|..] == [];
    assert Net(t[best..]) == next;
  }

  lemma SubstringStep(s: seq<Byte>, max: nat, b: Byte, depth: nat)
    requires LargestSubstring(s, max) && LargestSuffix(s + [b], depth)
    ensures LargestSubstring(s + [b], if depth > max then depth else max)
  {
    var t, best := s + [b], if depth > max then depth else max;
    forall i, j | 0 <= i <= j <= |t| ensures Net(t[i..j]) <= best {
      if j == |t| {
        assert t[i..j] == t[i..];
      } else {
        assert t[i..j] == s[i..j];
      }
    }
    var i, j :| 0 <= i <= j <= |s| && Net(s[i..j]) == max;
    assert t[i..j] == s[i..j];
    var k :| 0 <= k <= |t| && Net(t[k..]) == depth;
    assert t[k..|t|] == t[k..];
    assert Net(if depth > max then t[k..|t|] else t[i..j]) == best;
  }

  lemma EmptyText(s: seq<Byte>)
    ensures LargestSuffix(s[..0], 0) && LargestSubstring(s[..0], 0)
  {
    assert s[..0] == [] && s[..0][0..] == [] && s[..0][0..0] == [];
    assert Net(s[..0][0..]) == 0 && Net(s[..0][0..0]) == 0;
  }

  /** Rejects exactly the queries with a substring nested deeper than the cap. */
  method QueryTooDeep(query: seq<Byte>) returns (tooDeep: bool)
    ensures tooDeep <==> exists i, j :: 0 <= i <= j <= |query| && Net(query[i..j]) > MAX_QUERY_DEPTH
  {
    var depth: nat, max: nat := 0, 0;
    EmptyText(query);
    for n := 0 to |query|
      invariant LargestSuffix(query[..n], depth) && LargestSubstring(query[..n], max)
    {
      var b := query[n];
      SuffixStep(query[..n], depth, b);
      SubstringStep(query[..n], max, b, Saturating(depth, Weight(b)));
      assert query[..n] + [b] == query[..n + 1];
      if b == 123 || b == 40 || b == 91 {
        depth := depth + 1;
        max := if depth > max then depth else max;
      } else {
        ghost var before := depth;
        if b == 125 || b == 41 || b == 93 {
          depth := if depth == 0 then 0 else depth - 1;
        }
        NotDeeper(query[..n], before, max);
      }
    }
    assert query[..|query|] == query;
    tooDeep := max > MAX_QUERY_DEPTH;
    if tooDeep {
      var i, j :| 0 <= i <= j <= |query| && Net(query[i..j]) == max;
    }
  }

  lemma NotDeeper(s: seq<Byte>, depth: nat, max: nat)
    requires LargestSuffix(s, depth) && LargestSubstring(s, max)
    ensures depth <= max
  {
    var k :| 0 <= k <= |s| && Net(s[k..]) == depth;
    assert s[k..|s|] == s[k..];
  }
}
