/** Text helpers: trimming, as the loader and the type parser use it, and
    decimal numbers. */
module Strings {

  predicate IsSpace(c: char) {
    c == ' ' || c == '\t' || c == '\n' || c == '\r'
  }

  function TrimEnd(s: string): (r: string)
    ensures |r| <= |s|
  {
    if s != [] && IsSpace(s[|s| - 1]) then TrimEnd(s[..|s| - 1]) else s
  }

  function Trim(s: string): (r: string)
    ensures |r| <= |s|
  {
    if s != [] && IsSpace(s[0]) then Trim(s[1..]) else TrimEnd(s)
  }

  predicate Blank(s: string) {
    forall i :: 0 <= i < |s| ==> IsSpace(s[i])
  }

  /** Text that starts and ends with something visible. */
  predicate Solid(s: string) {
    s != [] && !IsSpace(s[0]) && !IsSpace(s[|s| - 1])
  }

  lemma {:induction false} TrimEndPadded(core: string, after: string)
    requires Solid(core) && Blank(after)
    ensures TrimEnd(core + after) == core
  {
    if after == [] {
      assert core + after == core;
    } else {
      var n := |after| - 1;
      assert (core + after)[..|core + after| - 1] == core + after[..n];
      TrimEndPadded(core, after[..n]);
    }
  }

  /** Padding is all that trimming removes. */
  lemma {:induction false} TrimPadded(before: string, core: string, after: string)
    requires Blank(before) && Solid(core) && Blank(after)
    ensures Trim(before + core + after) == core
  {
    if before == [] {
      assert before + core + after == core + after;
      TrimEndPadded(core, after);
    } else {
      assert (before + core + after)[1..] == before[1..] + core + after;
      TrimPadded(before[1..], core, after);
    }
  }

  function Decimal(n: nat): (digits: string)
    ensures |digits| >= 1
  {
    var last := ["0123456789"[n % 10]];
    if n < 10 then last else Decimal(n / 10) + last
  }
}
