/** Which plans the SQL generator accepts, in terms of the selection and the
    role's permissions. */
module PlanShape {
  import opened Values
  import opened Ir
  import opened SqlGen
  import opened Planner
  import opened OrderPlan
  import opened SelectPlan
  import opened Selections
  import opened RoleView

  // ----- which plans the generator accepts -----

  /** Whoever asks for `aggregate` or `nodes` asks for an aggregate call. */
  function WellFormedTest(): AggregateTest {
    (sels, ctx) => HasEntry(sels) ==> Calls(sels, ctx)
  }

  /** Main result on plans: a plan meets the generator's demands exactly when
      every aggregate selection it reaches contains an aggregate call. */
  lemma {:induction false} PlanWellFormed(ctx: TableCtx, kind: Kind, sel: Selection, w: World, correlated: bool)
    requires BuildSelect(ctx, kind, sel, w.md, w.s).Ok?
    ensures WellFormed(BuildSelect(ctx, kind, sel, w.md, w.s).value, correlated) <==>
            EverySelect(kind, sel.sub, ctx, w.md, w.s, WellFormedTest())
    decreases sel, 3
  {
    var q := BuildSelect(ctx, kind, sel, w.md, w.s).value;
    if kind.Aggregation? {
      EntryCount(sel.sub, ctx, w);
      EntriesWellFormed(sel.sub, ctx, w, q);
      EntriesCall(sel.sub, ctx, w, q);
      if !HasEntry(sel.sub) {
        NoEntries(sel.sub, ctx, w, q.fields);
      }
    } else {
      PlainFields(sel.sub, ctx, w);
      RowWellFormed(sel.sub, ctx, w);
    }
  }

  lemma {:induction false} RowWellFormed(sels: seq<Selection>, ctx: TableCtx, w: World)
    requires PlanFields(sels, ctx, w.md, w.s).Ok?
    ensures WellFormedRow(PlanFields(sels, ctx, w.md, w.s).value) <==> EveryField(sels, ctx, w.md, w.s, WellFormedTest())
    decreases sels, 1
  {
    PlainFields(sels, ctx, w);
    var fields := PlanFields(sels, ctx, w.md, w.s).value;
    forall i | 0 <= i < |fields| ensures RowField(fields[i].value) <==> BelowField(sels[i], ctx, w.md, w.s, WellFormedTest()) {
      PlanFieldAt(sels, i, ctx, w);
      FieldWellFormed(sels[i], ctx, w);
    }
    assert WellFormedRow(fields) <==> forall i :: 0 <= i < |fields| ==> RowField(fields[i].value);
  }

  lemma {:induction false} FieldWellFormed(sel: Selection, ctx: TableCtx, w: World)
    requires PlanField(sel, ctx, w.md, w.s).Ok?
    ensures RowField(PlanField(sel, ctx, w.md, w.s).value) <==> BelowField(sel, ctx, w.md, w.s, WellFormedTest())
    decreases sel, 4
  {
    if sel.name == "__typename" || ColumnAllowed(ctx, sel.name) {
    } else if FindRel(ctx.entry.objectRels, sel.name).Some? {
      var remote := TableCtxOf(w.md, FindRel(ctx.entry.objectRels, sel.name).value.target.value.0, w.s).value;
      PlainFields(sel.sub, remote, w);
      RowWellFormed(sel.sub, remote, w);
    } else {
      var (base, aggregate) := ArrayRel(ctx.entry, sel.name);
      var remote := TableCtxOf(w.md, FindRel(ctx.entry.arrayRels, base).value.target.value.0, w.s).value;
      PlanWellFormed(remote, if aggregate then Aggregation else List, sel, w, true);
    }
  }

  /** Entries of an aggregate select: only `nodes` can hold further selects. */
  lemma {:induction false} EntriesWellFormed(sels: seq<Selection>, ctx: TableCtx, w: World, q: SelectQuery)
    requires PlanEntries(sels, ctx, w.md, w.s) == Ok(q.fields)
    ensures WellFormedEntries(q) <==> EveryEntry(sels, ctx, w.md, w.s, WellFormedTest())
    decreases sels, 1
  {
    EntryCount(sels, ctx, w);
    forall i | 0 <= i < |sels| ensures EntryField(q.fields[i].value) <==> BelowEntry(sels[i], ctx, w.md, w.s, WellFormedTest()) {
      PlanEntryAt(sels, i, ctx, w);
      EntryWellFormed(sels[i], ctx, w);
    }
    assert WellFormedEntries(q) <==> forall i :: 0 <= i < |q.fields| ==> EntryField(q.fields[i].value);
  }

  lemma {:induction false} EntryWellFormed(sel: Selection, ctx: TableCtx, w: World)
    requires PlanEntry(sel, ctx, w.md, w.s).Ok?
    ensures EntryField(PlanEntry(sel, ctx, w.md, w.s).value) <==> BelowEntry(sel, ctx, w.md, w.s, WellFormedTest())
    decreases sel, 0
  {
    if sel.name == "nodes" {
      RowWellFormed(sel.sub, ctx, w);
    }
  }

  lemma NoEntries(sels: seq<Selection>, ctx: TableCtx, w: World, fields: seq<OutputField>)
    requires PlanEntries(sels, ctx, w.md, w.s) == Ok(fields) && !HasEntry(sels)
    ensures WellFormedRow(fields) && EveryEntry(sels, ctx, w.md, w.s, WellFormedTest())
  {
    EntryCount(sels, ctx, w);
    forall i | 0 <= i < |fields| ensures fields[i].value.Typename? {
      PlanEntryAt(sels, i, ctx, w);
    }
  }

  lemma {:induction false} AggColumnCount(sels: seq<Selection>, ctx: TableCtx, w: World)
    requires PlanAggColumns(sels, ctx, w.md, w.s).Ok?
    ensures |PlanAggColumns(sels, ctx, w.md, w.s).value| == |sels|
  {
    if sels != [] {
      AggColumnCount(sels[..|sels| - 1], ctx, w);
    }
  }

  /** A planned `aggregate` entry contains a call iff the selection asks for one. */
  lemma AggregateCalls(sels: seq<Selection>, ctx: TableCtx, w: World, aggs: seq<AggregateField>)
    requires PlanAggregates(sels, ctx, w.md, w.s) == Ok(aggs)
    ensures CallsAggregate(aggs) <==> exists j :: 0 <= j < |sels| && (sels[j].name == "count" || sels[j].sub != [])
  {
    if sels != [] {
      PlanAggregateAt(sels, 0, ctx, w, aggs);
    }
    forall j | 0 <= j < |sels|
      ensures |aggs| == |sels| && (aggs[j].op.Count? || aggs[j].op.over != [] <==> sels[j].name == "count" || sels[j].sub != [])
    {
      PlanAggregateAt(sels, j, ctx, w, aggs);
      if sels[j].name != "count" {
        AggColumnCount(sels[j].sub, ctx, w);
      }
    }
  }

  lemma EntriesCall(sels: seq<Selection>, ctx: TableCtx, w: World, q: SelectQuery)
    requires PlanEntries(sels, ctx, w.md, w.s) == Ok(q.fields) && q.nodesLimit == PermLimit(ctx.perms)
    ensures Aggregates(q) <==> Calls(sels, ctx)
  {
    EntryCount(sels, ctx, w);
    forall i | 0 <= i < |sels| ensures SqlGen.EntryCalls(q.fields[i].value, q.nodesLimit) <==> Selections.EntryCalls(sels[i], ctx) {
      PlanEntryAt(sels, i, ctx, w);
      if sels[i].name == "aggregate" {
        AggregateCalls(sels[i].sub, ctx, w, q.fields[i].value.aggs);
      }
    }
    assert Aggregates(q) <==> exists i :: 0 <= i < |q.fields| && SqlGen.EntryCalls(q.fields[i].value, q.nodesLimit);
  }

  // ----- selections without aggregates -----

  /** No aggregate relationship is selected at any depth. */
  predicate AggregateFree(sel: Selection) {
    var cut := |sel.name| - |Suffix()|;
    !(cut >= 0 && sel.name[cut..] == Suffix()) && forall i :: 0 <= i < |sel.sub| ==> AggregateFree(sel.sub[i])
  }

  lemma {:induction false} PlainFieldPasses(sel: Selection, ctx: TableCtx, md: Metadata, s: Session, ok: AggregateTest)
    requires AggregateFree(sel)
    ensures BelowField(sel, ctx, md, s, ok)
    decreases sel, 0
  {
    if sel.name == "__typename" || ColumnAllowed(ctx, sel.name) {
    } else if FindRel(ctx.entry.objectRels, sel.name).Some? {
      var target := FindRel(ctx.entry.objectRels, sel.name).value.target;
      if target.Some? && TableCtxOf(md, target.value.0, s).Some? {
        PlainPasses(sel.sub, TableCtxOf(md, target.value.0, s).value, md, s, ok);
      }
    } else {
      assert ArrayRel(ctx.entry, sel.name) == (sel.name, false);
      var rel := FindRel(ctx.entry.arrayRels, sel.name);
      if rel.Some? && rel.value.target.Some? && TableCtxOf(md, rel.value.target.value.0, s).Some? {
        PlainPasses(sel.sub, TableCtxOf(md, rel.value.target.value.0, s).value, md, s, ok);
      }
    }
  }

  /** A selection without aggregates passes every test. */
  lemma {:induction false} PlainPasses(sels: seq<Selection>, ctx: TableCtx, md: Metadata, s: Session, ok: AggregateTest)
    requires forall i :: 0 <= i < |sels| ==> AggregateFree(sels[i])
    ensures EveryField(sels, ctx, md, s, ok)
    decreases sels, 1
  {
    forall i | 0 <= i < |sels| ensures BelowField(sels[i], ctx, md, s, ok) {
      PlainFieldPasses(sels[i], ctx, md, s, ok);
    }
  }

  /** `nodes` over plain fields passes every test below it. */
  lemma NodesPass(sels: seq<Selection>, ctx: TableCtx, md: Metadata, s: Session, ok: AggregateTest)
    requires forall i :: 0 <= i < |sels| ==> AggregateFree(sels[i])
    ensures EveryEntry(sels, ctx, md, s, ok)
  {
    forall i | 0 <= i < |sels| ensures BelowEntry(sels[i], ctx, md, s, ok) {
      PlainPasses(sels[i].sub, ctx, md, s, ok);
    }
  }
}
