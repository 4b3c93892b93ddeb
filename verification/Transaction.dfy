/** A mutation operation runs its statements in one transaction (crates/server
    gql.rs): the world it leaves is the old one, or the old one after every
    statement in order. */
module Transaction {
  import opened Values
  import opened Database
  import opened Ir
  import opened Meaning
  import opened Storage
  import opened MutationSql
  import opened MutationCorrect
  import opened MutationGenerator
  import MutationPlan
  import Planner
  import opened Entries

  type Data = seq<(string, Value)>

  ghost predicate AllWellFormed(roots: seq<MutationRoot>) {
    forall i :: 0 <= i < |roots| ==> WellFormedRoot(roots[i])
  }

  /** The statements in order, each by its direct meaning, stopping at the
      first that fails. */
  ghost function Steps(roots: seq<MutationRoot>, w: World, rules: Rules, stringify: bool): Result<(World, Data), DbError>
    requires AllWellFormed(roots)
  {
    if roots == [] then Ok((w, []))
    else
      var n := |roots| - 1;
      var init := Steps(roots[..n], w, rules, stringify);
      if init.Err? then init
      else
        var last := MutationMeaning(roots[n], init.value.0, rules, stringify);
        if last.Err? then Err(last.error)
        else Ok((last.value.0, Put(init.value.1, roots[n].alias, last.value.1)))
  }

  /** The SQL of every root, before anything runs. */
  method CompileAll(roots: seq<MutationRoot>, stringify: bool) returns (statements: seq<Statement>)
    ensures |statements| == |roots|
    ensures forall i :: 0 <= i < |roots| ==> statements[i] == MutationToSql(roots[i], stringify)
  {
    statements := [];
    for i := 0 to |roots|
      invariant |statements| == i
      invariant forall k :: 0 <= k < i ==> statements[k] == MutationToSql(roots[k], stringify)
    {
      var st := CompileMutation(roots[i], stringify);
      statements := statements + [st];
    }
  }

  /** `tx.query_one(&sql)` on the transaction's copy. */
  method RunOne(ghost root: MutationRoot, st: Statement, tx: World, rules: Rules, ghost stringify: bool)
    returns (answer: Result<(World, Value), DbError>)
    requires WellFormedRoot(root) && st == MutationToSql(root, stringify)
    ensures answer == MutationMeaning(root, tx, rules, stringify)
  {
    StatementCorrect(root, tx, rules, stringify);
    answer := RunStatement(st, tx, rules);
  }

  lemma StepsNext(roots: seq<MutationRoot>, i: nat, w: World, rules: Rules, stringify: bool, tx: World, data: Data,
    answer: Result<(World, Value), DbError>)
    requires AllWellFormed(roots) && i < |roots| && Steps(roots[..i], w, rules, stringify) == Ok((tx, data))
    requires answer == MutationMeaning(roots[i], tx, rules, stringify)
    ensures answer.Ok? ==>
      Steps(roots[..i + 1], w, rules, stringify) == Ok((answer.value.0, Put(data, roots[i].alias, answer.value.1)))
    ensures answer.Err? ==> Steps(roots, w, rules, stringify).Err?
  {
    assert roots[..i + 1][..i] == roots[..i];
    FirstFailure(roots, i + 1, w, rules, stringify);
  }

  /** The statement loop: stops at the first statement that fails. */
  method RunAll(roots: seq<MutationRoot>, statements: seq<Statement>, w: World, rules: Rules, ghost stringify: bool)
    returns (r: Option<(World, Data)>)
    requires AllWellFormed(roots) && |statements| == |roots|
    requires forall i :: 0 <= i < |roots| ==> statements[i] == MutationToSql(roots[i], stringify)
    ensures r.Some? <==> Steps(roots, w, rules, stringify).Ok?
    ensures r.Some? ==> Ok(r.value) == Steps(roots, w, rules, stringify)
  {
    var tx, data := w, [];
    for i := 0 to |roots|
      invariant Steps(roots[..i], w, rules, stringify) == Ok((tx, data))
    {
      var answer := RunOne(roots[i], statements[i], tx, rules, stringify);
      StepsNext(roots, i, w, rules, stringify, tx, data, answer);
      if answer.Err? {
        return None;
      }
      tx, data := answer.value.0, Put(data, roots[i].alias, answer.value.1);
    }
    assert roots[..|roots|] == roots;
    r := Some((tx, data));
  }

  class Executor {
    var world: World
    const rules: Rules

    constructor (w: World, r: Rules)
      ensures world == w && rules == r
    {
      world := w;
      rules := r;
    }

    /** `commits` is what the final COMMIT answers; without it the transaction's
        copy is dropped. */
    method Execute(roots: seq<MutationRoot>, commits: bool, stringify: bool) returns (r: Option<Data>)
      requires AllWellFormed(roots)
      modifies this`world
      ensures r.Some? <==> commits && Steps(roots, old(world), rules, stringify).Ok?
      ensures r.Some? ==> Ok((world, r.value)) == Steps(roots, old(world), rules, stringify)
      ensures r.None? ==> world == old(world)
    {
      var statements := CompileAll(roots, stringify);
      var done := RunAll(roots, statements, world, rules, stringify);
      if done.None? || !commits {
        return None;
      }
      world := done.value.0;
      r := Some(done.value.1);
    }
  }

  /** What a prefix did is what the whole run did first. */
  lemma {:induction false} FirstFailure(roots: seq<MutationRoot>, i: nat, w: World, rules: Rules, stringify: bool)
    requires AllWellFormed(roots) && i <= |roots|
    ensures Steps(roots[..i], w, rules, stringify).Err? ==> Steps(roots, w, rules, stringify).Err?
  {
    if i == |roots| {
      assert roots[..i] == roots;
    } else {
      var n := |roots| - 1;
      assert roots[..n][..i] == roots[..i];
      FirstFailure(roots[..n], i, w, rules, stringify);
    }
  }

  /** What one successful root may do to the tables. */
  ghost predicate Permitted(root: MutationRoot, before: World, after: World, rules: Rules) {
    match root
    case MutationTypename(_, _) => after == before
    case InsertRoot(_, t, _, _, check, _) =>
      Elsewhere(t, before, after) && Extends(Rows(before.db, t), Rows(after.db, t)) &&
      forall i :: |Rows(before.db, t)| <= i < |Rows(after.db, t)| ==> NotFalse(check, before.db, Rows(after.db, t)[i])
    case UpdateRoot(_, t, sets, target, check, _) =>
      Elsewhere(t, before, after) && |Rows(after.db, t)| == |Rows(before.db, t)| &&
      forall i :: 0 <= i < |Rows(before.db, t)| ==>
        Rewritten(Rows(before.db, t)[i], Rows(after.db, t)[i], sets, target, check, before.db, rules)
    case DeleteRoot(_, t, target, _) =>
      Elsewhere(t, before, after) &&
      Rows(after.db, t) == Keep(Rows(before.db, t), Others(TargetMask(target, Rows(before.db, t), before.db)))
  }

  ghost predicate Elsewhere(t: Table, before: World, after: World) {
    after.db.engine == before.db.engine && forall u :: u != t ==> Rows(after.db, u) == Rows(before.db, u)
  }

  predicate Extends(before: seq<Row>, after: seq<Row>) {
    before <= after
  }

  ghost predicate NotFalse(check: Option<BoolExp>, db: Db, row: Row) {
    check.Some? ==> !Holds(check.value, db, row, row).False?
  }

  /** A row that passes the target gets the assignments and does not fail the
      check; every other row is as it was. */
  ghost predicate Rewritten(was: Row, now: Row, sets: seq<SetOp>, target: Option<BoolExp>, check: Option<BoolExp>, db: Db, rules: Rules) {
    if Passes(target, db, was) then now == Assigned(sets, was, db.engine, rules) && NotFalse(check, db, now)
    else now == was
  }

  lemma InsertPermitted(root: MutationRoot, w: World, rules: Rules, stringify: bool)
    requires root.InsertRoot? && WellFormedRoot(root) && MutationMeaning(root, w, rules, stringify).Ok?
    ensures Permitted(root, w, MutationMeaning(root, w, rules, stringify).value.0, rules)
  {
    StoreRowsAppends(w, root.table, root.columns, root.rows, rules);
  }

  lemma UpdatePermitted(root: MutationRoot, w: World, rules: Rules, stringify: bool)
    requires root.UpdateRoot? && WellFormedRoot(root) && MutationMeaning(root, w, rules, stringify).Ok?
    ensures Permitted(root, w, MutationMeaning(root, w, rules, stringify).value.0, rules)
  {
    var rows := Rows(w.db, root.table);
    var mask := TargetMask(root.target, rows, w.db);
    var now := Updated(rows, mask, root.sets, w.db.engine, rules);
    var after := MutationMeaning(root, w, rules, stringify).value.0;
    assert Rows(after.db, root.table) == now;
    forall i | 0 <= i < |rows| ensures Rewritten(rows[i], now[i], root.sets, root.target, root.check, w.db, rules) {
      if mask[i] {
        KeepMember(now, mask, now[i]);
      }
    }
  }

  lemma StepPermitted(root: MutationRoot, w: World, rules: Rules, stringify: bool)
    requires WellFormedRoot(root) && MutationMeaning(root, w, rules, stringify).Ok?
    ensures Permitted(root, w, MutationMeaning(root, w, rules, stringify).value.0, rules)
  {
    if root.InsertRoot? {
      InsertPermitted(root, w, rules, stringify);
    } else if root.UpdateRoot? {
      UpdatePermitted(root, w, rules, stringify);
    }
  }

  lemma StepBetween(roots: seq<MutationRoot>, i: nat, w: World, rules: Rules, stringify: bool)
    requires AllWellFormed(roots) && i < |roots| && Steps(roots[..i + 1], w, rules, stringify).Ok?
    ensures
      var before := Steps(roots[..i], w, rules, stringify);
      before.Ok? && MutationMeaning(roots[i], before.value.0, rules, stringify).Ok? &&
      MutationMeaning(roots[i], before.value.0, rules, stringify).value.0 == Steps(roots[..i + 1], w, rules, stringify).value.0
  {
    assert roots[..i + 1][..i] == roots[..i];
  }

  /** Main result: in a run that succeeds, every statement started from the
      world its predecessors left, and changed only what it was permitted to. */
  lemma {:induction false} EveryStepPermitted(roots: seq<MutationRoot>, i: nat, w: World, rules: Rules, stringify: bool)
    requires AllWellFormed(roots) && i < |roots| && Steps(roots, w, rules, stringify).Ok?
    ensures
      var before := Steps(roots[..i], w, rules, stringify);
      var after := Steps(roots[..i + 1], w, rules, stringify);
      before.Ok? && after.Ok? && Permitted(roots[i], before.value.0, after.value.0, rules)
  {
    FirstFailure(roots, i, w, rules, stringify);
    FirstFailure(roots, i + 1, w, rules, stringify);
    var before := Steps(roots[..i], w, rules, stringify).value.0;
    StepBetween(roots, i, w, rules, stringify);
    StepPermitted(roots[i], before, rules, stringify);
  }

  /** Every row that a planned update changes satisfied the role's filter, and
      everything the caller asked for, when its statement ran. */
  lemma UpdatedRowsWereVisible(roots: seq<MutationRoot>, i: nat, w: World, rules: Rules, stringify: bool, row: nat,
    args: seq<(string, Value)>, byPk: bool, perm: MutationPlan.UpdatePermission, ctx: Planner.TableCtx, md: Planner.Metadata,
    s: Planner.Session)
    requires AllWellFormed(roots) && i < |roots| && Steps(roots, w, rules, stringify).Ok? && roots[i].UpdateRoot?
    requires MutationPlan.UpdatePlanOf(args, byPk, perm, ctx, md, s) ==
             Ok(MutationPlan.UpdatePlan(roots[i].sets, roots[i].target, roots[i].check))
    requires Steps(roots[..i], w, rules, stringify).Ok? && Steps(roots[..i + 1], w, rules, stringify).Ok?
    ensures
      var before := Steps(roots[..i], w, rules, stringify).value.0.db;
      var after := Steps(roots[..i + 1], w, rules, stringify).value.0.db;
      var t := roots[i].table;
      var filter := MutationPlan.RowFilter(perm.filter, ctx, md, s);
      |Rows(after, t)| == |Rows(before, t)| && filter.Ok? &&
      (row < |Rows(before, t)| && Rows(after, t)[row] != Rows(before, t)[row] ==>
        Passes(filter.value, before, Rows(before, t)[row]) && NotFalse(roots[i].check, before, Rows(after, t)[row]))
  {
    var before := Steps(roots[..i], w, rules, stringify).value.0.db;
    EveryStepPermitted(roots, i, w, rules, stringify);
    var rows := Rows(before, roots[i].table);
    MutationPlan.UpdateReaches(args, byPk, perm, ctx, md, s, before, if row < |rows| then rows[row] else map[]);
  }

  /** Every row that a planned delete removes satisfied the role's filter. */
  lemma DeletedRowsWereVisible(roots: seq<MutationRoot>, i: nat, w: World, rules: Rules, stringify: bool, row: Row,
    args: seq<(string, Value)>, byPk: bool, filter: Value, ctx: Planner.TableCtx, md: Planner.Metadata, s: Planner.Session)
    requires AllWellFormed(roots) && i < |roots| && Steps(roots, w, rules, stringify).Ok? && roots[i].DeleteRoot?
    requires MutationPlan.DeletePlanOf(args, byPk, filter, ctx, md, s) == Ok(roots[i].target)
    requires Steps(roots[..i], w, rules, stringify).Ok? && Steps(roots[..i + 1], w, rules, stringify).Ok?
    ensures
      var before := Steps(roots[..i], w, rules, stringify).value.0.db;
      var after := Steps(roots[..i + 1], w, rules, stringify).value.0.db;
      var t := roots[i].table;
      var f := MutationPlan.RowFilter(filter, ctx, md, s);
      f.Ok? && (row in Rows(before, t) && row !in Rows(after, t) ==> Passes(f.value, before, row)) &&
      (row in Rows(after, t) ==> row in Rows(before, t) && !Passes(roots[i].target, before, row))
  {
    var before := Steps(roots[..i], w, rules, stringify).value.0.db;
    EveryStepPermitted(roots, i, w, rules, stringify);
    var rows := Rows(before, roots[i].table);
    var mask := TargetMask(roots[i].target, rows, before);
    KeepMember(rows, Others(mask), row);
    MutationPlan.DeleteReaches(args, byPk, filter, ctx, md, s, before, row);
  }
}
