/** A committed run of planned mutations, read from the client's JSON and the role's
    permissions: what every row of the target table is afterwards. */
module TransactionReading {
  import opened Values
  import opened Database
  import opened Ir
  import opened Storage
  import opened MutationSql
  import opened MutationCorrect
  import opened Transaction
  import opened FilterReading
  import opened MutationReading
  import opened InsertReading
  import MutationPlan
  import InsertPlan
  import Planner

  function ScopeAt(md: Planner.Metadata, s: Planner.Session, w: World): Scope {
    Scope(md, s, false, w.db)
  }

  // ----- updates -----

  lemma {:induction false} RewrittenReads(args: seq<(string, Value)>, byPk: bool, perm: MutationPlan.UpdatePermission, ctx: Planner.TableCtx,
    q: Scope, plan: MutationPlan.UpdatePlan, was: Row, now: Row, rules: Rules)
    requires !q.perm && MutationPlan.UpdatePlanOf(args, byPk, perm, ctx, q.md, q.s) == Ok(plan) && DistinctSets(plan.sets)
    requires Rewritten(was, now, plan.sets, plan.target, plan.check, q.db, rules)
    ensures UpdateReads(args, byPk, perm, ctx, q, was, now, rules)
  {
    UpdateTargets(args, byPk, perm, ctx, q, was);
    AssignedReads(args, byPk, perm, ctx, q, was, rules);
    CheckTruth(args, byPk, perm, ctx, q, now);
  }

  /** The same rows in the same places, each as the arguments and the permission say. */
  ghost predicate UpdatesRead(args: seq<(string, Value)>, byPk: bool, perm: MutationPlan.UpdatePermission, ctx: Planner.TableCtx, q: Scope,
    before: seq<Row>, after: seq<Row>, rules: Rules)
    requires !q.perm
  {
    |after| == |before| && forall k :: 0 <= k < |before| ==> UpdateReads(args, byPk, perm, ctx, q, before[k], after[k], rules)
  }

  lemma {:induction false} UpdateStepReads(root: MutationRoot, w: World, rules: Rules, stringify: bool, args: seq<(string, Value)>, byPk: bool,
    perm: MutationPlan.UpdatePermission, ctx: Planner.TableCtx, md: Planner.Metadata, s: Planner.Session)
    requires root.UpdateRoot? && WellFormedRoot(root) && MutationMeaning(root, w, rules, stringify).Ok?
    requires MutationPlan.UpdatePlanOf(args, byPk, perm, ctx, md, s) == Ok(MutationPlan.UpdatePlan(root.sets, root.target, root.check))
    ensures UpdatesRead(args, byPk, perm, ctx, ScopeAt(md, s, w), Rows(w.db, root.table),
              Rows(MutationMeaning(root, w, rules, stringify).value.0.db, root.table), rules)
  {
    var after := MutationMeaning(root, w, rules, stringify).value.0;
    UpdatePermitted(root, w, rules, stringify);
    assert DistinctSets(root.sets);
    forall k | 0 <= k < |Rows(w.db, root.table)|
      ensures UpdateReads(args, byPk, perm, ctx, ScopeAt(md, s, w), Rows(w.db, root.table)[k], Rows(after.db, root.table)[k], rules)
    {
      RewrittenReads(args, byPk, perm, ctx, ScopeAt(md, s, w), MutationPlan.UpdatePlan(root.sets, root.target, root.check),
        Rows(w.db, root.table)[k], Rows(after.db, root.table)[k], rules);
    }
  }

  /** Main result for updates: in a run that succeeds, a planned update leaves every
      row of its table as the arguments and the permission say. */
  lemma {:induction false} UpdatedRowsRead(roots: seq<MutationRoot>, i: nat, w: World, rules: Rules, stringify: bool,
    args: seq<(string, Value)>, byPk: bool, perm: MutationPlan.UpdatePermission, ctx: Planner.TableCtx, md: Planner.Metadata, s: Planner.Session)
    requires AllWellFormed(roots) && i < |roots| && Steps(roots, w, rules, stringify).Ok? && roots[i].UpdateRoot?
    requires MutationPlan.UpdatePlanOf(args, byPk, perm, ctx, md, s) ==
             Ok(MutationPlan.UpdatePlan(roots[i].sets, roots[i].target, roots[i].check))
    ensures Steps(roots[..i], w, rules, stringify).Ok? && Steps(roots[..i + 1], w, rules, stringify).Ok?
    ensures
      var start := Steps(roots[..i], w, rules, stringify).value.0;
      UpdatesRead(args, byPk, perm, ctx, ScopeAt(md, s, start), Rows(start.db, roots[i].table),
        Rows(Steps(roots[..i + 1], w, rules, stringify).value.0.db, roots[i].table), rules)
  {
    FirstFailure(roots, i, w, rules, stringify);
    FirstFailure(roots, i + 1, w, rules, stringify);
    StepBetween(roots, i, w, rules, stringify);
    UpdateStepReads(roots[i], Steps(roots[..i], w, rules, stringify).value.0, rules, stringify, args, byPk, perm, ctx, md, s);
  }

  // ----- inserts -----

  lemma {:induction false} StoredRowReads(w: World, t: Table, plan: MutationPlan.InsertRootPlan, rules: Rules, objects: seq<Value>,
    perm: InsertPlan.InsertPermission, ctx: Planner.TableCtx, q: Scope, e: Effect, k: nat)
    requires q.db == w.db && MutationPlan.InsertPlanOf(objects, perm, ctx, q.md, q.s) == Ok(plan) && k < |objects|
    requires StoreRows(w, t, plan.grid.columns, plan.grid.rows, rules) == Ok(e)
    requires k < |e.touched| && NotFalse(plan.check, w.db, e.touched[k])
    ensures InsertReads(objects[k], perm, ctx, q, rules.columns(t), e.touched[k])
  {
    var draws := StoredRow(w, t, plan.grid.columns, plan.grid.rows, rules, k);
    StoredReads(objects, perm, ctx, q, k, t, draws, rules);
    FilterTruth(perm.check, ctx, q, e.touched[k]);
  }

  /** One new row per object behind the old rows, each as its object and the
      permission say. */
  ghost predicate InsertsRead(objects: seq<Value>, perm: InsertPlan.InsertPermission, ctx: Planner.TableCtx, q: Scope, names: seq<string>,
    before: seq<Row>, after: seq<Row>)
  {
    |after| == |before| + |objects| && before <= after &&
    forall k :: 0 <= k < |objects| ==> InsertReads(objects[k], perm, ctx, q, names, after[|before| + k])
  }

  /** What a successful insert leaves. */
  lemma {:induction false} InsertEffect(root: MutationRoot, w: World, rules: Rules, stringify: bool)
    requires root.InsertRoot? && WellFormedRoot(root) && MutationMeaning(root, w, rules, stringify).Ok?
    ensures StoreRows(w, root.table, root.columns, root.rows, rules).Ok?
    ensures
      var touched := StoreRows(w, root.table, root.columns, root.rows, rules).value.touched;
      |touched| == |root.rows| && Rows(MutationMeaning(root, w, rules, stringify).value.0.db, root.table) == Rows(w.db, root.table) + touched &&
      forall k :: 0 <= k < |touched| ==> NotFalse(root.check, w.db, touched[k])
  {
    StoreRowsAppends(w, root.table, root.columns, root.rows, rules);
  }

  lemma {:induction false} InsertStepReads(root: MutationRoot, w: World, rules: Rules, stringify: bool, objects: seq<Value>,
    perm: InsertPlan.InsertPermission, ctx: Planner.TableCtx, md: Planner.Metadata, s: Planner.Session)
    requires root.InsertRoot? && WellFormedRoot(root) && MutationMeaning(root, w, rules, stringify).Ok?
    requires MutationPlan.InsertPlanOf(objects, perm, ctx, md, s) ==
             Ok(MutationPlan.InsertRootPlan(InsertPlan.Grid(root.columns, root.rows), root.check))
    ensures InsertsRead(objects, perm, ctx, ScopeAt(md, s, w), rules.columns(root.table), Rows(w.db, root.table),
              Rows(MutationMeaning(root, w, rules, stringify).value.0.db, root.table))
  {
    InsertEffect(root, w, rules, stringify);
    InsertPlan.InsertGridShape(objects, perm, ctx.entry, s);
    var plan := MutationPlan.InsertRootPlan(InsertPlan.Grid(root.columns, root.rows), root.check);
    var e := StoreRows(w, root.table, root.columns, root.rows, rules).value;
    forall k | 0 <= k < |objects| ensures InsertReads(objects[k], perm, ctx, ScopeAt(md, s, w), rules.columns(root.table), e.touched[k]) {
      StoredRowReads(w, root.table, plan, rules, objects, perm, ctx, ScopeAt(md, s, w), e, k);
    }
  }

  /** Main result for inserts: a planned insert only appends, one row per object, each
      with the values it is given and none failing the permission's check. */
  lemma {:induction false} InsertedRowsRead(roots: seq<MutationRoot>, i: nat, w: World, rules: Rules, stringify: bool, objects: seq<Value>,
    perm: InsertPlan.InsertPermission, ctx: Planner.TableCtx, md: Planner.Metadata, s: Planner.Session)
    requires AllWellFormed(roots) && i < |roots| && Steps(roots, w, rules, stringify).Ok? && roots[i].InsertRoot?
    requires MutationPlan.InsertPlanOf(objects, perm, ctx, md, s) ==
             Ok(MutationPlan.InsertRootPlan(InsertPlan.Grid(roots[i].columns, roots[i].rows), roots[i].check))
    ensures Steps(roots[..i], w, rules, stringify).Ok? && Steps(roots[..i + 1], w, rules, stringify).Ok?
    ensures
      var start := Steps(roots[..i], w, rules, stringify).value.0;
      InsertsRead(objects, perm, ctx, ScopeAt(md, s, start), rules.columns(roots[i].table), Rows(start.db, roots[i].table),
        Rows(Steps(roots[..i + 1], w, rules, stringify).value.0.db, roots[i].table))
  {
    FirstFailure(roots, i, w, rules, stringify);
    FirstFailure(roots, i + 1, w, rules, stringify);
    StepBetween(roots, i, w, rules, stringify);
    InsertStepReads(roots[i], Steps(roots[..i], w, rules, stringify).value.0, rules, stringify, objects, perm, ctx, md, s);
  }

  // ----- deletes -----

  ghost function Spared(args: seq<(string, Value)>, byPk: bool, filter: Value, ctx: Planner.TableCtx, q: Scope, rows: seq<Row>): (mask: seq<bool>)
    requires !q.perm
    ensures |mask| == |rows| && forall k :: 0 <= k < |rows| ==>
      mask[k] == !(DeleteAsks(args, byPk, ctx, q, rows[k]) && PermissionTruth(filter, ctx, q, rows[k]).True?)
  {
    seq(|rows|, k requires 0 <= k < |rows| => !(DeleteAsks(args, byPk, ctx, q, rows[k]) && PermissionTruth(filter, ctx, q, rows[k]).True?))
  }

  /** Main result for deletes: what is left are, in order, the rows that the arguments
      do not ask for or that the permission's filter does not pass. */
  lemma {:induction false} DeletedRowsRead(roots: seq<MutationRoot>, i: nat, w: World, rules: Rules, stringify: bool,
    args: seq<(string, Value)>, byPk: bool, filter: Value, ctx: Planner.TableCtx, md: Planner.Metadata, s: Planner.Session)
    requires AllWellFormed(roots) && i < |roots| && Steps(roots, w, rules, stringify).Ok? && roots[i].DeleteRoot?
    requires MutationPlan.DeletePlanOf(args, byPk, filter, ctx, md, s) == Ok(roots[i].target)
    ensures Steps(roots[..i], w, rules, stringify).Ok? && Steps(roots[..i + 1], w, rules, stringify).Ok?
    ensures
      var start := Steps(roots[..i], w, rules, stringify).value.0;
      var rows := Rows(start.db, roots[i].table);
      Rows(Steps(roots[..i + 1], w, rules, stringify).value.0.db, roots[i].table) ==
      Keep(rows, Spared(args, byPk, filter, ctx, ScopeAt(md, s, start), rows))
  {
    EveryStepPermitted(roots, i, w, rules, stringify);
    var start := Steps(roots[..i], w, rules, stringify).value.0;
    SparedRows(args, byPk, filter, ctx, ScopeAt(md, s, start), roots[i].target, Rows(start.db, roots[i].table));
  }

  lemma {:induction false} SparedRows(args: seq<(string, Value)>, byPk: bool, filter: Value, ctx: Planner.TableCtx, q: Scope, target: Option<BoolExp>,
    rows: seq<Row>)
    requires !q.perm && MutationPlan.DeletePlanOf(args, byPk, filter, ctx, q.md, q.s) == Ok(target)
    ensures Spared(args, byPk, filter, ctx, q, rows) == Others(TargetMask(target, rows, q.db))
  {
    forall k | 0 <= k < |rows| ensures Spared(args, byPk, filter, ctx, q, rows)[k] == Others(TargetMask(target, rows, q.db))[k] {
      DeleteTargets(args, byPk, filter, ctx, q, rows[k]);
    }
  }
}
