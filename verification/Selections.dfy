/** Selection sets as the planner walks them: a test that has to hold of every
    aggregate selection reached, at any depth, under the permissions in force
    there. */
module Selections {
  import opened Values
  import opened Planner
  import opened OrderPlan
  import opened SelectPlan

  type AggregateTest = (seq<Selection>, TableCtx) -> bool

  predicate EverySelect(kind: Kind, sels: seq<Selection>, ctx: TableCtx, md: Metadata, s: Session, ok: AggregateTest)
    decreases sels, 2
  {
    if kind.Aggregation? then ok(sels, ctx) && EveryEntry(sels, ctx, md, s, ok) else EveryField(sels, ctx, md, s, ok)
  }

  predicate EveryField(sels: seq<Selection>, ctx: TableCtx, md: Metadata, s: Session, ok: AggregateTest)
    decreases sels, 1
  {
    forall i :: 0 <= i < |sels| ==> BelowField(sels[i], ctx, md, s, ok)
  }

  predicate EveryEntry(sels: seq<Selection>, ctx: TableCtx, md: Metadata, s: Session, ok: AggregateTest)
    decreases sels, 1
  {
    forall i :: 0 <= i < |sels| ==> BelowEntry(sels[i], ctx, md, s, ok)
  }

  /** A relationship is followed to its table, with the role's permissions there. */
  predicate BelowField(sel: Selection, ctx: TableCtx, md: Metadata, s: Session, ok: AggregateTest)
    decreases sel, 0
  {
    if sel.name == "__typename" || ColumnAllowed(ctx, sel.name) then true
    else if FindRel(ctx.entry.objectRels, sel.name).Some? then
      var target := FindRel(ctx.entry.objectRels, sel.name).value.target;
      target.Some? && TableCtxOf(md, target.value.0, s).Some? ==>
        EveryField(sel.sub, TableCtxOf(md, target.value.0, s).value, md, s, ok)
    else
      var (base, aggregate) := ArrayRel(ctx.entry, sel.name);
      var rel := FindRel(ctx.entry.arrayRels, base);
      rel.Some? && rel.value.target.Some? && TableCtxOf(md, rel.value.target.value.0, s).Some? ==>
        EverySelect(if aggregate then Aggregation else List, sel.sub, TableCtxOf(md, rel.value.target.value.0, s).value, md, s, ok)
  }

  predicate BelowEntry(sel: Selection, ctx: TableCtx, md: Metadata, s: Session, ok: AggregateTest)
    decreases sel, 0
  {
    sel.name == "nodes" ==> EveryField(sel.sub, ctx, md, s, ok)
  }

  // ----- a weaker test holds too -----

  ghost predicate Implies(ok: AggregateTest, weaker: AggregateTest) {
    forall sels, ctx :: ok(sels, ctx) ==> weaker(sels, ctx)
  }

  lemma {:induction false} WeakerSelect(kind: Kind, sels: seq<Selection>, ctx: TableCtx, md: Metadata, s: Session, ok: AggregateTest,
    weaker: AggregateTest)
    requires EverySelect(kind, sels, ctx, md, s, ok) && Implies(ok, weaker)
    ensures EverySelect(kind, sels, ctx, md, s, weaker)
    decreases sels, 2
  {
    if kind.Aggregation? {
      forall i | 0 <= i < |sels| ensures BelowEntry(sels[i], ctx, md, s, weaker) {
        WeakerEntry(sels[i], ctx, md, s, ok, weaker);
      }
    } else {
      WeakerFields(sels, ctx, md, s, ok, weaker);
    }
  }

  lemma {:induction false} WeakerFields(sels: seq<Selection>, ctx: TableCtx, md: Metadata, s: Session, ok: AggregateTest,
    weaker: AggregateTest)
    requires EveryField(sels, ctx, md, s, ok) && Implies(ok, weaker)
    ensures EveryField(sels, ctx, md, s, weaker)
    decreases sels, 1
  {
    forall i | 0 <= i < |sels| ensures BelowField(sels[i], ctx, md, s, weaker) {
      WeakerField(sels[i], ctx, md, s, ok, weaker);
    }
  }

  lemma {:induction false} WeakerEntry(sel: Selection, ctx: TableCtx, md: Metadata, s: Session, ok: AggregateTest, weaker: AggregateTest)
    requires BelowEntry(sel, ctx, md, s, ok) && Implies(ok, weaker)
    ensures BelowEntry(sel, ctx, md, s, weaker)
    decreases sel, 0
  {
    if sel.name == "nodes" {
      WeakerFields(sel.sub, ctx, md, s, ok, weaker);
    }
  }

  lemma {:induction false} WeakerField(sel: Selection, ctx: TableCtx, md: Metadata, s: Session, ok: AggregateTest, weaker: AggregateTest)
    requires BelowField(sel, ctx, md, s, ok) && Implies(ok, weaker)
    ensures BelowField(sel, ctx, md, s, weaker)
    decreases sel, 0
  {
    if sel.name == "__typename" || ColumnAllowed(ctx, sel.name) {
    } else if FindRel(ctx.entry.objectRels, sel.name).Some? {
      var target := FindRel(ctx.entry.objectRels, sel.name).value.target;
      if target.Some? && TableCtxOf(md, target.value.0, s).Some? {
        WeakerFields(sel.sub, TableCtxOf(md, target.value.0, s).value, md, s, ok, weaker);
      }
    } else {
      var (base, aggregate) := ArrayRel(ctx.entry, sel.name);
      var rel := FindRel(ctx.entry.arrayRels, base);
      if rel.Some? && rel.value.target.Some? && TableCtxOf(md, rel.value.target.value.0, s).Some? {
        WeakerSelect(if aggregate then Aggregation else List, sel.sub, TableCtxOf(md, rel.value.target.value.0, s).value, md, s, ok, weaker);
      }
    }
  }

  // ----- the tests -----

  predicate HasEntry(sels: seq<Selection>) {
    exists i :: 0 <= i < |sels| && (sels[i].name == "aggregate" || sels[i].name == "nodes")
  }

  /** An aggregate call is asked for: a count, a column operator with columns, or
      `nodes` where no permission limit cuts it. */
  predicate Calls(sels: seq<Selection>, ctx: TableCtx) {
    exists i :: 0 <= i < |sels| && EntryCalls(sels[i], ctx)
  }

  predicate EntryCalls(sel: Selection, ctx: TableCtx) {
    (sel.name == "nodes" && PermLimit(ctx.perms).None?) ||
    (sel.name == "aggregate" && exists j :: 0 <= j < |sel.sub| && (sel.sub[j].name == "count" || sel.sub[j].sub != []))
  }

  /** No counted column needs a cell guard. */
  predicate CountsUnguarded(sels: seq<Selection>, ctx: TableCtx, md: Metadata, s: Session) {
    forall i :: 0 <= i < |sels| && sels[i].name == "aggregate" ==>
      forall j :: 0 <= j < |sels[i].sub| && sels[i].sub[j].name == "count" ==> CountUnguarded(sels[i].sub[j], ctx, md, s)
  }

  predicate CountUnguarded(sel: Selection, ctx: TableCtx, md: Metadata, s: Session) {
    forall k :: 0 <= k < |sel.args.columns| ==> Guard(ctx, sel.args.columns[k], md, s) == Ok(None)
  }
}
