/** Paging runs against any server that answers each cursor with the adjacent
    piece of one fixed listing. */
module Paging {
  import opened Values
  import opened Database

  /** A bound on the key, as a cursor gives it. */
  datatype Bound = NoBound | Above(k: Value) | Below(k: Value)

  /** The edges, the flag for the side ahead and the flag for the side behind. */
  datatype PageReply = Page(rows: seq<Row>, more: bool, behind: bool)

  /** The slice of the listing that lies beyond the cursor. */
  ghost predicate Bounds(pk: string, all: seq<Row>, b: Bound, lo: nat, hi: nat) {
    lo <= hi <= |all| &&
    match b
    case NoBound => lo == 0 && hi == |all|
    case Above(k) => lo > 0 && k == Get(all[lo - 1], pk) && hi == |all|
    case Below(k) => lo == 0 && hi < |all| && k == Get(all[hi], pk)
  }

  function SliceReply(all: seq<Row>, size: nat, backward: bool, b: Bound, lo: nat, hi: nat): PageReply
    requires lo <= hi <= |all|
  {
    Page(if hi - lo <= size then all[lo..hi] else if backward then all[hi - size..hi] else all[lo..lo + size],
         hi - lo > size,
         !b.NoBound?)
  }

  function Flatten(pages: seq<seq<Row>>): seq<Row> {
    if pages == [] then [] else Flatten(pages[..|pages| - 1]) + pages[|pages| - 1]
  }

  function FlattenBack(pages: seq<seq<Row>>): seq<Row> {
    if pages == [] then [] else pages[|pages| - 1] + FlattenBack(pages[..|pages| - 1])
  }

  /** The `after` a client sends for page `k`: the last key of the page before. */
  function NextBound(pk: string, pages: seq<seq<Row>>, k: nat): Bound
    requires k <= |pages|
  {
    if k == 0 || pages[k - 1] == [] then NoBound else Above(Get(pages[k - 1][|pages[k - 1]| - 1], pk))
  }

  ghost predicate ForwardRun(reply: Bound -> PageReply, pk: string, pages: seq<seq<Row>>) {
    |pages| >= 1 && forall k {:trigger NextBound(pk, pages, k)} :: 0 <= k < |pages| ==>
      pages[k] == reply(NextBound(pk, pages, k)).rows && (reply(NextBound(pk, pages, k)).more <==> k < |pages| - 1)
  }

  ghost predicate ServesForward(reply: Bound -> PageReply, pk: string, size: nat, all: seq<Row>) {
    forall b, lo, hi :: Bounds(pk, all, b, lo, hi) && !b.Below? ==> reply(b) == SliceReply(all, size, false, b, lo, hi)
  }

  /** Before page `k` the run has delivered a prefix, and its cursor points there. */
  lemma {:induction false} ForwardPrefix(reply: Bound -> PageReply, pk: string, size: nat, all: seq<Row>, pages: seq<seq<Row>>, k: nat)
    requires ServesForward(reply, pk, size, all) && ForwardRun(reply, pk, pages) && size >= 1 && k < |pages|
    ensures
      var lo := |Flatten(pages[..k])|;
      var b := NextBound(pk, pages, k);
      && lo <= |all| && Flatten(pages[..k]) == all[..lo]
      && Bounds(pk, all, b, lo, |all|) && reply(b) == SliceReply(all, size, false, b, lo, |all|)
      && (reply(b).behind <==> lo > 0)
  {
    if k > 0 {
      ForwardPrefix(reply, pk, size, all, pages, k - 1);
      ForwardStep(pk, size, all, pages, k, |Flatten(pages[..k - 1])|);
    }
  }

  lemma ForwardStep(pk: string, size: nat, all: seq<Row>, pages: seq<seq<Row>>, k: nat, lo: nat)
    requires 0 < k <= |pages| && size >= 1 && lo + size < |all|
    requires Flatten(pages[..k - 1]) == all[..lo] && pages[k - 1] == all[lo..lo + size]
    ensures Flatten(pages[..k]) == all[..lo + size] && Bounds(pk, all, NextBound(pk, pages, k), lo + size, |all|)
  {
    assert pages[..k][..k - 1] == pages[..k - 1];
    assert Flatten(pages[..k]) == Flatten(pages[..k - 1]) + pages[k - 1];
    assert all[..lo] + all[lo..lo + size] == all[..lo + size];
  }

  /** The pages of a run are the listing, cut in order. */
  lemma ForwardRunIsListing(reply: Bound -> PageReply, pk: string, size: nat, all: seq<Row>, pages: seq<seq<Row>>)
    requires ServesForward(reply, pk, size, all) && ForwardRun(reply, pk, pages) && size >= 1
    ensures Flatten(pages) == all
  {
    var k := |pages| - 1;
    ForwardPrefix(reply, pk, size, all, pages, k);
    var lo := |Flatten(pages[..k])|;
    assert pages[k] == all[lo..];
    assert all[..lo] + all[lo..] == all;
  }

  /** A run in progress: every page so far promised more. */
  ghost predicate PartialRun(reply: Bound -> PageReply, pk: string, pages: seq<seq<Row>>) {
    forall k {:trigger NextBound(pk, pages, k)} :: 0 <= k < |pages| ==>
      pages[k] == reply(NextBound(pk, pages, k)).rows && reply(NextBound(pk, pages, k)).more
  }

  /** Every run ends: `begun` pages that cover `all[..lo]` extend to a full run. */
  lemma {:induction false} ForwardRunEnds(reply: Bound -> PageReply, pk: string, size: nat, all: seq<Row>, begun: seq<seq<Row>>, lo: nat)
    returns (pages: seq<seq<Row>>)
    requires ServesForward(reply, pk, size, all) && size >= 1 && PartialRun(reply, pk, begun)
    requires Bounds(pk, all, NextBound(pk, begun, |begun|), lo, |all|)
    ensures ForwardRun(reply, pk, pages)
    decreases |all| - lo
  {
    var r := reply(NextBound(pk, begun, |begun|));
    pages := begun + [r.rows];
    AppendPage(reply, pk, begun);
    if r.more {
      assert r == SliceReply(all, size, false, NextBound(pk, begun, |begun|), lo, |all|);
      assert pages[|begun|] == all[lo..lo + size];
      pages := ForwardRunEnds(reply, pk, size, all, pages, lo + size);
    }
  }

  lemma AppendPage(reply: Bound -> PageReply, pk: string, begun: seq<seq<Row>>)
    requires PartialRun(reply, pk, begun)
    ensures
      var r := reply(NextBound(pk, begun, |begun|));
      var pages := begun + [r.rows];
      if r.more then PartialRun(reply, pk, pages) else ForwardRun(reply, pk, pages)
  {
    var r := reply(NextBound(pk, begun, |begun|));
    var pages := begun + [r.rows];
    forall k | 0 <= k < |pages|
      ensures pages[k] == reply(NextBound(pk, pages, k)).rows
      ensures k < |begun| ==> reply(NextBound(pk, pages, k)).more
      ensures k == |begun| ==> reply(NextBound(pk, pages, k)) == r
    {
      assert NextBound(pk, pages, k) == NextBound(pk, begun, k);
    }
  }

  lemma ForwardPage(reply: Bound -> PageReply, pk: string, size: nat, all: seq<Row>, pages: seq<seq<Row>>, k: nat)
    returns (lo: nat, hi: nat)
    requires ServesForward(reply, pk, size, all) && ForwardRun(reply, pk, pages) && size >= 1 && k < |pages|
    ensures lo <= hi <= |all| && pages[k] == all[lo..hi]
  {
    ForwardPrefix(reply, pk, size, all, pages, k);
    lo := |Flatten(pages[..k])|;
    hi := if |all| - lo <= size then |all| else lo + size;
  }

  /** The `before` a client sends for page `k`: the first key of the page before. */
  function PrevBound(pk: string, pages: seq<seq<Row>>, k: nat): Bound
    requires k <= |pages|
  {
    if k == 0 || pages[k - 1] == [] then NoBound else Below(Get(pages[k - 1][0], pk))
  }

  ghost predicate BackwardRun(reply: Bound -> PageReply, pk: string, pages: seq<seq<Row>>) {
    |pages| >= 1 && forall k {:trigger PrevBound(pk, pages, k)} :: 0 <= k < |pages| ==>
      pages[k] == reply(PrevBound(pk, pages, k)).rows && (reply(PrevBound(pk, pages, k)).more <==> k < |pages| - 1)
  }

  ghost predicate ServesBackward(reply: Bound -> PageReply, pk: string, size: nat, all: seq<Row>) {
    forall b, lo, hi :: Bounds(pk, all, b, lo, hi) && !b.Above? ==> reply(b) == SliceReply(all, size, true, b, lo, hi)
  }

  lemma {:induction false} BackwardSuffix(reply: Bound -> PageReply, pk: string, size: nat, all: seq<Row>, pages: seq<seq<Row>>, k: nat)
    requires ServesBackward(reply, pk, size, all) && BackwardRun(reply, pk, pages) && size >= 1 && k < |pages|
    ensures
      var done := |FlattenBack(pages[..k])|;
      var b := PrevBound(pk, pages, k);
      && done <= |all| && FlattenBack(pages[..k]) == all[|all| - done..]
      && Bounds(pk, all, b, 0, |all| - done) && reply(b) == SliceReply(all, size, true, b, 0, |all| - done)
      && (reply(b).behind <==> done > 0)
  {
    if k > 0 {
      BackwardSuffix(reply, pk, size, all, pages, k - 1);
      BackwardStep(pk, size, all, pages, k, |all| - |FlattenBack(pages[..k - 1])|);
    }
  }

  lemma BackwardStep(pk: string, size: nat, all: seq<Row>, pages: seq<seq<Row>>, k: nat, hi: nat)
    requires 0 < k <= |pages| && size >= 1 && size < hi <= |all|
    requires FlattenBack(pages[..k - 1]) == all[hi..] && pages[k - 1] == all[hi - size..hi]
    ensures FlattenBack(pages[..k]) == all[hi - size..] && Bounds(pk, all, PrevBound(pk, pages, k), 0, hi - size)
  {
    assert pages[..k][..k - 1] == pages[..k - 1];
    assert FlattenBack(pages[..k]) == pages[k - 1] + FlattenBack(pages[..k - 1]);
    assert all[hi - size..hi] + all[hi..] == all[hi - size..];
  }

  lemma BackwardRunIsListing(reply: Bound -> PageReply, pk: string, size: nat, all: seq<Row>, pages: seq<seq<Row>>)
    requires ServesBackward(reply, pk, size, all) && BackwardRun(reply, pk, pages) && size >= 1
    ensures FlattenBack(pages) == all
  {
    var k := |pages| - 1;
    BackwardSuffix(reply, pk, size, all, pages, k);
    var hi := |all| - |FlattenBack(pages[..k])|;
    assert pages[k] == all[..hi];
    assert all[..hi] + all[hi..] == all;
  }

  ghost predicate PartialBackwardRun(reply: Bound -> PageReply, pk: string, pages: seq<seq<Row>>) {
    forall k {:trigger PrevBound(pk, pages, k)} :: 0 <= k < |pages| ==>
      pages[k] == reply(PrevBound(pk, pages, k)).rows && reply(PrevBound(pk, pages, k)).more
  }

  /** Every backward run ends: `begun` pages that cover `all[hi..]` extend to a
      full run. */
  lemma {:induction false} BackwardRunEnds(reply: Bound -> PageReply, pk: string, size: nat, all: seq<Row>, begun: seq<seq<Row>>, hi: nat)
    returns (pages: seq<seq<Row>>)
    requires ServesBackward(reply, pk, size, all) && size >= 1 && PartialBackwardRun(reply, pk, begun)
    requires Bounds(pk, all, PrevBound(pk, begun, |begun|), 0, hi)
    ensures BackwardRun(reply, pk, pages)
    decreases hi
  {
    var r := reply(PrevBound(pk, begun, |begun|));
    pages := begun + [r.rows];
    PrependPage(reply, pk, begun);
    if r.more {
      assert r == SliceReply(all, size, true, PrevBound(pk, begun, |begun|), 0, hi);
      assert pages[|begun|] == all[hi - size..hi];
      pages := BackwardRunEnds(reply, pk, size, all, pages, hi - size);
    }
  }

  lemma PrependPage(reply: Bound -> PageReply, pk: string, begun: seq<seq<Row>>)
    requires PartialBackwardRun(reply, pk, begun)
    ensures
      var r := reply(PrevBound(pk, begun, |begun|));
      var pages := begun + [r.rows];
      if r.more then PartialBackwardRun(reply, pk, pages) else BackwardRun(reply, pk, pages)
  {
    var r := reply(PrevBound(pk, begun, |begun|));
    var pages := begun + [r.rows];
    forall k | 0 <= k < |pages|
      ensures pages[k] == reply(PrevBound(pk, pages, k)).rows
      ensures k < |begun| ==> reply(PrevBound(pk, pages, k)).more
      ensures k == |begun| ==> reply(PrevBound(pk, pages, k)) == r
    {
      assert PrevBound(pk, pages, k) == PrevBound(pk, begun, k);
    }
  }

  lemma BackwardPage(reply: Bound -> PageReply, pk: string, size: nat, all: seq<Row>, pages: seq<seq<Row>>, k: nat)
    returns (lo: nat, hi: nat)
    requires ServesBackward(reply, pk, size, all) && BackwardRun(reply, pk, pages) && size >= 1 && k < |pages|
    ensures lo <= hi <= |all| && pages[k] == all[lo..hi]
  {
    BackwardSuffix(reply, pk, size, all, pages, k);
    hi := |all| - |FlattenBack(pages[..k])|;
    lo := if hi <= size then 0 else hi - size;
  }
}
