/** The role hierarchy (crates/schema/src/plan.rs): expansion of an inherited
    role into the plain roles behind it, and resolution of mutation
    permissions level by level. Hierarchies may be cyclic. */
module Roles {
  import opened Values

  datatype InheritedRole = InheritedRole(name: string, roleSet: seq<string>)

  type Hierarchy = seq<InheritedRole>

  /** The first entry of that name, if any. */
  function Lookup(h: Hierarchy, role: string): (found: Option<seq<string>>)
    ensures found.Some? <==> exists i :: 0 <= i < |h| && h[i].name == role
  {
    if h == [] then None
    else if h[0].name == role then
      assert h[0].name == role;
      Some(h[0].roleSet)
    else
      var rest := Lookup(h[1..], role);
      assert forall i :: 0 <= i < |h[1..]| ==> h[1..][i] == h[i + 1];
      assert rest.None? ==> forall i :: 0 < i < |h| ==> h[i] == h[1..][i - 1];
      rest
  }

  predicate IsInherited(h: Hierarchy, role: string) {
    Lookup(h, role).Some?
  }

  function Parents(h: Hierarchy, role: string): seq<string> {
    var found := Lookup(h, role);
    if found.Some? then found.value else []
  }

  // ----- reachability -----

  ghost predicate IsPath(h: Hierarchy, path: seq<string>) {
    |path| >= 1 && forall i :: 0 <= i < |path| - 1 ==> path[i + 1] in Parents(h, path[i])
  }

  /** `to` is reached from `from` through at least one inheritance step. */
  ghost predicate Reaches(h: Hierarchy, from: string, to: string) {
    exists path :: IsPath(h, path) && |path| >= 2 && path[0] == from && path[|path| - 1] == to
  }

  lemma ReachesStep(h: Hierarchy, from: string, mid: string, to: string)
    requires from == mid || Reaches(h, from, mid)
    requires to in Parents(h, mid)
    ensures Reaches(h, from, to)
  {
    if from == mid {
      assert IsPath(h, [from, to]);
    } else {
      var path :| IsPath(h, path) && |path| >= 2 && path[0] == from && path[|path| - 1] == mid;
      assert IsPath(h, path + [to]);
    }
  }

  /** A set that contains the start and is closed under parents contains
      everything reachable. */
  lemma {:induction false} ClosedContainsPath(h: Hierarchy, closed: set<string>, path: seq<string>, k: nat)
    requires IsPath(h, path) && k < |path| && path[0] in closed
    requires forall r :: r in closed ==> forall p :: p in Parents(h, r) ==> p in closed
    ensures path[k] in closed
  {
    if k > 0 {
      ClosedContainsPath(h, closed, path, k - 1);
    }
  }

  ghost function Universe(h: Hierarchy, role: string): set<string> {
    {role} + (set i, j | 0 <= i < |h| && 0 <= j < |h[i].roleSet| :: h[i].roleSet[j])
  }

  lemma {:induction false} ParentsInUniverse(h: Hierarchy, role: string, r: string, p: string)
    requires p in Parents(h, r)
    ensures p in Universe(h, role)
  {
    if h[0].name == r {
      var j :| 0 <= j < |h[0].roleSet| && h[0].roleSet[j] == p;
    } else {
      ParentsInUniverse(h[1..], role, r, p);
      if p != role {
        var i, j :| 0 <= i < |h[1..]| && 0 <= j < |h[1..][i].roleSet| && h[1..][i].roleSet[j] == p;
        assert h[i + 1].roleSet[j] == p;
      }
    }
  }

  // ----- expand_role -----

  ghost predicate NoDuplicates<T>(xs: seq<T>) {
    forall i, j :: 0 <= i < j < |xs| ==> xs[i] != xs[j]
  }

  /** Everything met so far is the start or reachable from it, and the parents
      of every role already seen are seen or still waiting. */
  ghost predicate Explored(h: Hierarchy, role: string, seen: set<string>, stack: seq<string>) {
    && (role in seen || role in stack)
    && (forall r :: r in seen || r in stack ==> r == role || Reaches(h, role, r))
    && (forall r :: r in seen ==> forall p :: p in Parents(h, r) ==> p in seen || p in stack)
  }

  ghost predicate Collected(h: Hierarchy, role: string, seen: set<string>, out: seq<string>) {
    NoDuplicates(out) && forall r :: r in out <==> r in seen && !IsInherited(h, r) && r != role
  }

  lemma ExploredFinal(h: Hierarchy, role: string, seen: set<string>, out: seq<string>)
    requires Explored(h, role, seen, []) && Collected(h, role, seen, out)
    ensures forall r :: r in out <==> !IsInherited(h, r) && Reaches(h, role, r)
  {
    forall r | !IsInherited(h, r) && Reaches(h, role, r) ensures r in out {
      var path :| IsPath(h, path) && |path| >= 2 && path[0] == role && path[|path| - 1] == r;
      ClosedContainsPath(h, seen, path, |path| - 1);
      assert path[1] in Parents(h, role);
    }
  }

  lemma ExploredStep(h: Hierarchy, role: string, seen: set<string>, stack: seq<string>, current: string)
    requires Explored(h, role, seen, stack + [current])
    ensures Explored(h, role, seen + {current}, stack + Parents(h, current))
  {
    var next := stack + Parents(h, current);
    forall r | r in seen + {current} || r in next ensures r == role || Reaches(h, role, r) {
      assert current in stack + [current];
      if r in Parents(h, current) {
        ReachesStep(h, role, current, r);
      } else if r in stack {
        assert r in stack + [current];
      }
    }
    forall r, p | r in seen + {current} && p in Parents(h, r) ensures p in seen + {current} || p in next {
      if r in seen {
        assert p in seen || p in stack + [current];
      }
    }
    assert role in seen || role in stack + [current];
  }

  method ExpandRole(h: Hierarchy, role: string) returns (out: seq<string>)
    ensures NoDuplicates(out)
    ensures forall r :: r in out <==> !IsInherited(h, r) && Reaches(h, role, r)
  {
    out := [];
    var stack := [role];
    var seen := {};
    ghost var universe := Universe(h, role);
    while stack != []
      invariant Explored(h, role, seen, stack)
      invariant Collected(h, role, seen, out)
      invariant seen <= universe && forall r :: r in stack ==> r in universe
      decreases universe - seen, |stack|
    {
      var current := stack[|stack| - 1];
      ghost var before := stack;
      stack := stack[..|stack| - 1];
      assert before == stack + [current];
      if current in seen {
        assert forall r :: r in before ==> r in stack || r in seen;
        continue;
      }
      ExploredStep(h, role, seen, stack, current);
      ghost var unseen := universe - seen;
      seen := seen + {current};
      assert current in unseen && current !in universe - seen;
      match Lookup(h, current) {
        case Some(roleSet) =>
          forall p | p in roleSet ensures p in universe {
            ParentsInUniverse(h, role, current, p);
          }
          stack := stack + roleSet;
        case None =>
          assert stack + Parents(h, current) == stack;
          if current != role {
            out := out + [current];
          }
      }
    }
    ExploredFinal(h, role, seen, out);
  }

  // ----- resolve_role_perm -----

  datatype PermissionEntry<T> = PermissionEntry(role: string, permission: T)

  /** The first applicable entry of the role itself. */
  function Direct<T>(list: seq<PermissionEntry<T>>, role: string, applies: T -> bool): Option<T> {
    if list == [] then None
    else if list[0].role == role && applies(list[0].permission) then Some(list[0].permission)
    else Direct(list[1..], role, applies)
  }

  /** A rank under which every parent lies below its child: the hierarchy is
      acyclic. */
  ghost predicate Ranked(h: Hierarchy, rank: string -> nat) {
    forall r, p :: p in Parents(h, r) ==> rank(p) < rank(r)
  }

  /** The one answer that some parent gives and no parent contradicts. */
  ghost function Common<T>(answers: seq<Option<T>>): Option<T> {
    if exists a :: a in answers && a.Some? && forall b :: b in answers && b.Some? ==> b == a
    then var a :| a in answers && a.Some? && forall b :: b in answers && b.Some? ==> b == a; a
    else None
  }

  /** The specification: a direct permission, else the parents' common answer. */
  ghost function Resolved<T>(h: Hierarchy, list: seq<PermissionEntry<T>>, role: string, applies: T -> bool, rank: string -> nat): Option<T>
    requires Ranked(h, rank)
    decreases rank(role), 1
  {
    if Direct(list, role, applies).Some? then Direct(list, role, applies)
    else Common(Answers(h, list, role, applies, rank, Parents(h, role)))
  }

  ghost function Answers<T>(h: Hierarchy, list: seq<PermissionEntry<T>>, role: string, applies: T -> bool, rank: string -> nat,
    parents: seq<string>): (answers: seq<Option<T>>)
    requires Ranked(h, rank) && forall p :: p in parents ==> p in Parents(h, role)
    ensures |answers| == |parents|
    ensures forall i :: 0 <= i < |parents| ==> answers[i] == Resolved(h, list, parents[i], applies, rank)
    decreases rank(role), 0, |parents|
  {
    seq(|parents|, i requires 0 <= i < |parents| =>
      assert parents[i] in parents;
      Resolved(h, list, parents[i], applies, rank))
  }

  /** A role left behind in `visiting`: not inherited and without permission. */
  ghost predicate DeadLeaf<T>(h: Hierarchy, list: seq<PermissionEntry<T>>, role: string, applies: T -> bool) {
    !IsInherited(h, role) && Direct(list, role, applies).None?
  }

  lemma DeadLeafResolvesToNone<T>(h: Hierarchy, list: seq<PermissionEntry<T>>, role: string, applies: T -> bool, rank: string -> nat)
    requires Ranked(h, rank) && DeadLeaf(h, list, role, applies)
    ensures Resolved(h, list, role, applies, rank) == None
  {
    assert Parents(h, role) == [];
  }

  /** The non-empty answers, in order: the resolver's `found` vector. */
  ghost function Found<T>(answers: seq<Option<T>>): seq<T> {
    if answers == [] then []
    else
      var init := Found(answers[..|answers| - 1]);
      var last := answers[|answers| - 1];
      if last.Some? then init + [last.value] else init
  }

  lemma {:induction false} FoundMembers<T>(answers: seq<Option<T>>, x: T)
    ensures x in Found(answers) <==> Some(x) in answers
  {
    if answers != [] {
      var init := answers[..|answers| - 1];
      FoundMembers(init, x);
      assert answers == init + [answers[|answers| - 1]];
    }
  }

  /** The resolver's decision: the first permission, if all are equal to it. */
  function Agreed<T(==)>(found: seq<T>): Option<T> {
    if found != [] && forall i :: 0 <= i < |found| ==> found[i] == found[0] then Some(found[0]) else None
  }

  /** .. which is the parents' common answer. */
  lemma CommonOfFound<T>(answers: seq<Option<T>>)
    ensures Common(answers) == Agreed(Found(answers))
  {
    var found := Found(answers);
    forall x ensures x in found <==> Some(x) in answers {
      FoundMembers(answers, x);
    }
    if Agreed(found).Some? {
      assert found[0] in found;
      assert Some(found[0]) in answers;
      forall b | b in answers && b.Some? ensures b == Some(found[0]) {
        assert b == Some(b.value) && b.value in found;
      }
    } else if exists a :: a in answers && a.Some? && forall b :: b in answers && b.Some? ==> b == a {
      var a :| a in answers && a.Some? && forall b :: b in answers && b.Some? ==> b == a;
      assert a == Some(a.value) && a.value in found;
      forall i | 0 <= i < |found| ensures found[i] == found[0] {
        FoundMembers(answers, found[i]);
        FoundMembers(answers, found[0]);
      }
      assert false;
    }
  }

  method ResolveRolePerm<T(==)>(h: Hierarchy, list: seq<PermissionEntry<T>>, role: string, applies: T -> bool, ghost rank: string -> nat)
    returns (res: Option<T>)
    ensures Ranked(h, rank) ==> res == Resolved(h, list, role, applies, rank)
  {
    forall r, p | p in Parents(h, r) ensures p in Universe(h, role) {
      ParentsInUniverse(h, role, r, p);
    }
    var visiting;
    res, visiting := ResolveRec(h, list, role, applies, {}, Universe(h, role), rank);
  }

  /** `resolve_role_perm_rec`. It terminates on every hierarchy. It returns
      `visiting` with nothing removed and only dead leaves added, which is why
      the leftovers cannot change a later answer. */
  method ResolveRec<T(==)>(h: Hierarchy, list: seq<PermissionEntry<T>>, role: string, applies: T -> bool, visiting: set<string>,
    ghost universe: set<string>, ghost rank: string -> nat)
    returns (res: Option<T>, after: set<string>)
    requires role in universe && forall r, p :: p in Parents(h, r) ==> p in universe
    requires Ranked(h, rank) ==> forall v :: v in visiting ==> rank(v) > rank(role) || DeadLeaf(h, list, v, applies)
    ensures visiting <= after && forall v :: v in after - visiting ==> DeadLeaf(h, list, v, applies)
    ensures Ranked(h, rank) ==> res == Resolved(h, list, role, applies, rank)
    decreases universe - visiting, 1
  {
    var direct := Direct(list, role, applies);
    if direct.Some? {
      return direct, visiting;
    }
    if role in visiting {
      if Ranked(h, rank) {
        DeadLeafResolvesToNone(h, list, role, applies, rank);
      }
      return None, visiting;
    }
    after := visiting + {role};
    var inherited := Lookup(h, role);
    if inherited.None? {
      if Ranked(h, rank) {
        DeadLeafResolvesToNone(h, list, role, applies, rank);
      }
      return None, after;
    }
    assert role in universe - visiting && role !in universe - after;
    var found;
    found, after := ResolveParents(h, list, role, inherited.value, applies, after, universe, rank);
    after := after - {role};
    res := Agreed(found);
    if Ranked(h, rank) {
      CommonOfFound(Answers(h, list, role, applies, rank, Parents(h, role)));
    }
  }

  /** The resolver's loop over the parents of `role`, sharing one `visiting`. */
  method ResolveParents<T(==)>(h: Hierarchy, list: seq<PermissionEntry<T>>, role: string, parents: seq<string>, applies: T -> bool,
    visiting: set<string>, ghost universe: set<string>, ghost rank: string -> nat)
    returns (found: seq<T>, after: set<string>)
    requires parents == Parents(h, role) && forall r, p :: p in Parents(h, r) ==> p in universe
    requires Ranked(h, rank) ==> forall v :: v in visiting ==> rank(v) >= rank(role) || DeadLeaf(h, list, v, applies)
    ensures visiting <= after && forall v :: v in after - visiting ==> DeadLeaf(h, list, v, applies)
    ensures Ranked(h, rank) ==> found == Found(Answers(h, list, role, applies, rank, parents))
    decreases universe - visiting, 2
  {
    found, after := [], visiting;
    for i := 0 to |parents|
      invariant visiting <= after && forall v :: v in after - visiting ==> DeadLeaf(h, list, v, applies)
      invariant Ranked(h, rank) ==> found == Found(Answers(h, list, role, applies, rank, parents[..i]))
    {
      assert parents[i] in Parents(h, role);
      var p;
      p, after := ResolveRec(h, list, parents[i], applies, after, universe, rank);
      if Ranked(h, rank) {
        AnswersSnoc(h, list, role, applies, rank, parents, i);
      }
      if p.Some? {
        found := found + [p.value];
      }
    }
    assert parents[..|parents|] == parents;
  }

  lemma AnswersSnoc<T>(h: Hierarchy, list: seq<PermissionEntry<T>>, role: string, applies: T -> bool, rank: string -> nat,
    parents: seq<string>, i: nat)
    requires Ranked(h, rank) && parents == Parents(h, role) && i < |parents|
    ensures Answers(h, list, role, applies, rank, parents[..i + 1]) ==
            Answers(h, list, role, applies, rank, parents[..i]) + [Resolved(h, list, parents[i], applies, rank)]
  {
  }

  predicate Always<T>(permission: T) {
    true
  }

  /** Two parents resolve, and to different permissions. */
  ghost predicate Conflict<T>(h: Hierarchy, list: seq<PermissionEntry<T>>, role: string, rank: string -> nat)
    requires Ranked(h, rank)
  {
    var answers := Answers(h, list, role, Always<T>, rank, Parents(h, role));
    Direct(list, role, Always<T>).None? &&
    exists i, j :: 0 <= i < |answers| && 0 <= j < |answers| && answers[i].Some? && answers[j].Some? && answers[i] != answers[j]
  }

  /** In a conflict nothing is inherited. */
  lemma ConflictResolvesToNone<T>(h: Hierarchy, list: seq<PermissionEntry<T>>, role: string, rank: string -> nat)
    requires Ranked(h, rank) && Conflict(h, list, role, rank)
    ensures Resolved(h, list, role, Always<T>, rank) == None
  {
    var answers := Answers(h, list, role, Always<T>, rank, Parents(h, role));
    var i, j :| 0 <= i < |answers| && 0 <= j < |answers| && answers[i].Some? && answers[j].Some? && answers[i] != answers[j];
    assert answers[i] in answers && answers[j] in answers;
  }

  lemma {:induction false} DirectAlways<T>(list: seq<PermissionEntry<T>>, role: string)
    ensures Direct(list, role, Always<T>).Some? <==> exists i :: 0 <= i < |list| && list[i].role == role
  {
    if list != [] && list[0].role != role {
      DirectAlways(list[1..], role);
      assert forall i :: 0 < i < |list| ==> list[i] == list[1..][i - 1];
      assert forall i :: 0 <= i < |list[1..]| ==> list[1..][i] == list[i + 1];
    }
  }

  /** Some two of the found permissions differ iff they are not all the first. */
  lemma ConflictOfFound<T>(answers: seq<Option<T>>)
    ensures
      var found := Found(answers);
      (|found| > 1 && exists k :: 0 <= k < |found| && found[k] != found[0]) <==>
      exists i, j :: 0 <= i < |answers| && 0 <= j < |answers| && answers[i].Some? && answers[j].Some? && answers[i] != answers[j]
  {
    var found := Found(answers);
    forall x ensures x in found <==> Some(x) in answers {
      FoundMembers(answers, x);
    }
    if |found| > 1 && exists k :: 0 <= k < |found| && found[k] != found[0] {
      var k :| 0 <= k < |found| && found[k] != found[0];
      FoundMembers(answers, found[k]);
      FoundMembers(answers, found[0]);
      var i :| 0 <= i < |answers| && answers[i] == Some(found[k]);
      var j :| 0 <= j < |answers| && answers[j] == Some(found[0]);
    }
    if i, j :| 0 <= i < |answers| && 0 <= j < |answers| && answers[i].Some? && answers[j].Some? && answers[i] != answers[j] {
      assert answers[i] in answers && answers[j] in answers;
      assert answers[i] == Some(answers[i].value) && answers[j] == Some(answers[j].value);
      assert answers[i].value in found && answers[j].value in found;
      var a :| 0 <= a < |found| && found[a] == answers[i].value;
      var b :| 0 <= b < |found| && found[b] == answers[j].value;
      assert found[a] != found[0] || found[b] != found[0];
    }
  }

  /** `conflicts_in`: exact on every acyclic hierarchy. */
  method ConflictsIn<T(==)>(h: Hierarchy, list: seq<PermissionEntry<T>>, role: string, ghost rank: string -> nat) returns (conflict: bool)
    ensures Ranked(h, rank) ==> conflict == Conflict(h, list, role, rank)
  {
    DirectAlways(list, role);
    if exists i :: 0 <= i < |list| && list[i].role == role {
      return false;
    }
    var inherited := Lookup(h, role);
    if inherited.None? {
      return false;
    }
    var found: seq<T> := [];
    ghost var universe := Universe(h, role);
    forall r, p | p in Parents(h, r) ensures p in universe {
      ParentsInUniverse(h, role, r, p);
    }
    for i := 0 to |inherited.value|
      invariant Ranked(h, rank) ==> found == Found(Answers(h, list, role, Always<T>, rank, inherited.value[..i]))
    {
      assert inherited.value[i] in Parents(h, role);
      var p, visiting := ResolveRec(h, list, inherited.value[i], Always<T>, {}, universe, rank);
      if Ranked(h, rank) {
        AnswersSnoc(h, list, role, Always<T>, rank, inherited.value, i);
      }
      if p.Some? {
        found := found + [p.value];
      }
    }
    if Ranked(h, rank) {
      assert inherited.value[..|inherited.value|] == inherited.value == Parents(h, role);
      ConflictOfFound(Answers(h, list, role, Always<T>, rank, Parents(h, role)));
    }
    conflict := |found| > 1 && exists k :: 0 <= k < |found| && found[k] != found[0];
  }
}
