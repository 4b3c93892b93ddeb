/** Which of two things comes first, and how the outcomes of several comparisons
    combine: the leftmost that is no tie decides. */
module Outcomes {
  import opened Values
  import opened Database
  import opened Sorting

  datatype Outcome = Sooner | Later | Tie

  /** The leftmost outcome that is no tie. */
  function Leftmost(outcomes: seq<Outcome>): Outcome {
    if outcomes == [] then Tie
    else
      var init := Leftmost(outcomes[..|outcomes| - 1]);
      if init.Tie? then outcomes[|outcomes| - 1] else init
  }

  function Settle(sooner: bool, later: bool): Outcome {
    if sooner then Sooner else if later then Later else Tie
  }

  lemma {:induction false} LeftmostConcat(xs: seq<Outcome>, ys: seq<Outcome>)
    ensures Leftmost(xs + ys) == if Leftmost(xs).Tie? then Leftmost(ys) else Leftmost(xs)
  {
    if ys == [] {
      assert xs + ys == xs;
    } else {
      var n := |ys| - 1;
      assert (xs + ys)[..|xs| + n] == xs + ys[..n];
      LeftmostConcat(xs, ys[..n]);
    }
  }

  lemma {:induction false} LeftmostCons(first: Outcome, rest: seq<Outcome>)
    ensures Leftmost([first] + rest) == if first.Tie? then Leftmost(rest) else first
  {
    assert [first][..0] == [] && Leftmost([first][..0]).Tie?;
    LeftmostConcat([first], rest);
  }

  // ----- sort keys -----

  function SpecOutcome(eng: Engine, spec: SortSpec, x: Value, y: Value): Outcome {
    if x == y then Tie else Settle(KeyBefore(eng, spec, x, y), KeyBefore(eng, spec, y, x))
  }

  function KeyOutcomes(eng: Engine, specs: seq<SortSpec>, x: seq<Value>, y: seq<Value>): (r: seq<Outcome>)
    requires |x| == |y| == |specs|
    ensures |r| == |specs| && forall i :: 0 <= i < |specs| ==> r[i] == SpecOutcome(eng, specs[i], x[i], y[i])
  {
    seq(|specs|, i requires 0 <= i < |specs| => SpecOutcome(eng, specs[i], x[i], y[i]))
  }

  lemma {:induction false} LaterIsBefore(eng: Engine, specs: seq<SortSpec>, x: seq<Value>, y: seq<Value>, k: nat, vs: set<Value>)
    requires |x| == |y| == |specs| && k <= |specs| && TotalOn(eng, vs) && KeysIn(x, vs) && KeysIn(y, vs)
    ensures Leftmost(KeyOutcomes(eng, specs, x, y)[k..]) == Later <==> Before(eng, specs, y, x, k)
    decreases |specs| - k
  {
    var outcomes := KeyOutcomes(eng, specs, x, y);
    if k < |specs| {
      LaterIsBefore(eng, specs, x, y, k + 1, vs);
      KeyTotal(eng, specs[k], x[k], y[k], vs);
      assert outcomes[k..] == [outcomes[k]] + outcomes[k + 1..];
      LeftmostCons(outcomes[k], outcomes[k + 1..]);
    }
  }
}
