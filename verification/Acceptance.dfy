/** What an accepted selection guarantees: keys that identify a row, aggregates only
    where they are allowed, and only granted columns in them. */
module Acceptance {
  import opened Values
  import opened Database
  import opened Planner
  import opened OrderPlan
  import opened SelectPlan
  import opened Selections
  import opened RoleView
  import RoleReading

  // ----- `_by_pk` -----

  lemma {:induction false} EveryKeyGiven(ctx: TableCtx, pk: seq<(string, Value)>, c: string)
    requires PkPredicates(ctx, pk).Ok? && c in ctx.entry.primaryKey
    ensures exists k :: 0 <= k < |pk| && pk[k].0 == c
  {
  }

  /** An accepted `_by_pk` root finds at most one row. */
  lemma {:induction false} ByPkFindsOne(ctx: TableCtx, sel: Selection, w: World, i: nat, j: nat)
    requires BuildSelect(ctx, ByPk, sel, w.md, w.s).Ok? && KeysDistinct(ctx.entry.primaryKey, Rows(w.db, ctx.table))
    requires i < |Rows(w.db, ctx.table)| && j < |Rows(w.db, ctx.table)|
    requires Wanted(ctx, ByPk, sel.args, w, Rows(w.db, ctx.table)[i]) && Wanted(ctx, ByPk, sel.args, w, Rows(w.db, ctx.table)[j])
    ensures i == j
  {
    var rows, pk := Rows(w.db, ctx.table), sel.args.pk;
    RoleReading.WantedReads(ctx, ByPk, sel.args, w, rows[i]);
    RoleReading.WantedReads(ctx, ByPk, sel.args, w, rows[j]);
    forall c | c in ctx.entry.primaryKey ensures Get(rows[i], c) == Get(rows[j], c) {
      EveryKeyGiven(ctx, pk, c);
      var k :| 0 <= k < |pk| && pk[k].0 == c;
      assert RoleReading.KeyIs(pk[k], ctx, w, rows[i]) && RoleReading.KeyIs(pk[k], ctx, w, rows[j]);
    }
  }

  // ----- aggregates -----

  /** Some permission in force on the table allows aggregates. */
  function AllowedTest(): AggregateTest {
    (sels: seq<Selection>, ctx: TableCtx) => exists i :: 0 <= i < |ctx.perms| && ctx.perms[i].allowAggregations
  }

  /** Below an accepted selection every aggregate over a relationship, at any depth,
      is on a table where the role may aggregate. */
  lemma {:induction false} AggregatesAllowed(sels: seq<Selection>, ctx: TableCtx, md: Metadata, s: Session)
    requires PlanFields(sels, ctx, md, s).Ok?
    ensures EveryField(sels, ctx, md, s, AllowedTest())
    decreases sels, 1
  {
    forall i | 0 <= i < |sels| ensures BelowField(sels[i], ctx, md, s, AllowedTest()) {
      FieldAt(sels, i, ctx, md, s);
      FieldAllowed(sels[i], ctx, md, s);
    }
  }

  lemma {:induction false} FieldAt(sels: seq<Selection>, i: nat, ctx: TableCtx, md: Metadata, s: Session)
    requires PlanFields(sels, ctx, md, s).Ok? && i < |sels|
    ensures PlanField(sels[i], ctx, md, s).Ok?
  {
    var n := |sels| - 1;
    if i < n {
      FieldAt(sels[..n], i, ctx, md, s);
    }
  }

  lemma {:induction false} EntryAt(sels: seq<Selection>, i: nat, ctx: TableCtx, md: Metadata, s: Session)
    requires PlanEntries(sels, ctx, md, s).Ok? && i < |sels|
    ensures PlanEntry(sels[i], ctx, md, s).Ok?
  {
    var n := |sels| - 1;
    if i < n {
      EntryAt(sels[..n], i, ctx, md, s);
    }
  }

  lemma {:induction false} FieldAllowed(sel: Selection, ctx: TableCtx, md: Metadata, s: Session)
    requires PlanField(sel, ctx, md, s).Ok?
    ensures BelowField(sel, ctx, md, s, AllowedTest())
    decreases sel, 4
  {
    if sel.name == "__typename" || ColumnAllowed(ctx, sel.name) {
    } else if FindRel(ctx.entry.objectRels, sel.name).Some? {
      var target := FindRel(ctx.entry.objectRels, sel.name).value.target;
      AggregatesAllowed(sel.sub, TableCtxOf(md, target.value.0, s).value, md, s);
    } else {
      var (base, aggregate) := ArrayRel(ctx.entry, sel.name);
      var target := FindRel(ctx.entry.arrayRels, base).value.target.value;
      SubsAllowed(sel, if aggregate then Aggregation else List, TableCtxOf(md, target.0, s).value, md, s);
    }
  }

  lemma {:induction false} SubsAllowed(sel: Selection, kind: Kind, ctx: TableCtx, md: Metadata, s: Session)
    requires BuildSelect(ctx, kind, sel, md, s).Ok? && (kind.Aggregation? ==> AllowsAggregations(ctx))
    ensures EverySelect(kind, sel.sub, ctx, md, s, AllowedTest())
    decreases sel, 3
  {
    if kind.Aggregation? {
      forall i | 0 <= i < |sel.sub| ensures BelowEntry(sel.sub[i], ctx, md, s, AllowedTest()) {
        EntryAt(sel.sub, i, ctx, md, s);
        if sel.sub[i].name == "nodes" {
          AggregatesAllowed(sel.sub[i].sub, ctx, md, s);
        }
      }
    } else {
      AggregatesAllowed(sel.sub, ctx, md, s);
    }
  }

  // ----- columns of aggregates -----

  predicate Granted(ctx: TableCtx, column: string) {
    column in ctx.entry.columns &&
    (ctx.perms == [] || exists i :: 0 <= i < |ctx.perms| && (ctx.perms[i].columns.AllColumns? || column in ctx.perms[i].columns.names))
  }

  predicate AggregateName(name: string) {
    name == "sum" || name == "avg" || name == "max" || name == "min" || name == "stddev" || name == "stddev_samp" || name == "stddev_pop" ||
    name == "variance" || name == "var_samp" || name == "var_pop"
  }

  lemma {:induction false} ColumnAt(sels: seq<Selection>, i: nat, ctx: TableCtx, md: Metadata, s: Session)
    requires PlanAggColumns(sels, ctx, md, s).Ok? && i < |sels|
    ensures Granted(ctx, sels[i].name)
  {
    var n := |sels| - 1;
    if i < n {
      ColumnAt(sels[..n], i, ctx, md, s);
    }
  }

  /** An accepted aggregate is a count of granted columns, or one of ten functions over
      granted columns. */
  lemma {:induction false} AggregateAccepted(sel: Selection, ctx: TableCtx, md: Metadata, s: Session)
    requires PlanAggregate(sel, ctx, md, s).Ok?
    ensures
      (sel.name == "count" && forall k :: 0 <= k < |sel.args.columns| ==> Granted(ctx, sel.args.columns[k])) ||
      (AggregateName(sel.name) && forall i :: 0 <= i < |sel.sub| ==> Granted(ctx, sel.sub[i].name))
  {
    if sel.name != "count" {
      NameKnown(sel.name);
      forall i | 0 <= i < |sel.sub| ensures Granted(ctx, sel.sub[i].name) {
        ColumnAt(sel.sub, i, ctx, md, s);
      }
    }
  }

  lemma {:induction false} NameKnown(name: string)
    ensures IsColumnOp(name) <==> AggregateName(name)
  {
    var names := ["sum", "avg", "max", "min", "stddev", "stddev_samp", "stddev_pop", "variance", "var_samp", "var_pop"];
    OneOfMember(name, names);
  }

  lemma {:induction false} OneOfMember(name: string, names: seq<string>)
    ensures OneOf(name, names) <==> exists i :: 0 <= i < |names| && names[i] == name
  {
    if names != [] {
      OneOfMember(name, names[1..]);
      assert forall i :: 1 <= i < |names| ==> names[i] == names[1..][i - 1];
    }
  }
}
