/** A whole query operation under a role: one statement, one entry per root. */
module OperationView {
  import opened Values
  import opened Ir
  import opened Sql
  import opened SqlGen
  import opened Planner
  import opened SelectPlan
  import opened Selections
  import opened RoleView
  import opened PlanShape
  import opened EndToEnd
  import SelectCorrect
  import Meaning

  /** A root field of the operation, on a table the role has. */
  datatype Root = TableRoot(ctx: TableCtx, kind: Kind, sel: Selection) | NameRoot(alias: string, name: string)

  function Planned(root: Root, md: Metadata, s: Session): Result<RootField, PlanError> {
    match root
    case TableRoot(ctx, kind, sel) =>
      var q := BuildSelect(ctx, kind, sel, md, s);
      if q.Err? then Err(q.error) else Ok(SelectRoot(sel.alias, q.value))
    case NameRoot(alias, name) => Ok(TypenameRoot(alias, name))
  }

  /** What the role may see of a root. */
  ghost function SeeRoot(root: Root, w: World): (string, Value) {
    match root
    case TableRoot(ctx, kind, sel) => (sel.alias, SeeSelect(ctx, kind, sel, Meaning.NoOuter, w))
    case NameRoot(alias, name) => (alias, Text(name))
  }

  ghost predicate Answerable(root: Root, w: World) {
    Planned(root, w.md, w.s).Ok? &&
    (root.TableRoot? ==> root.ctx.perms != [] && EverySelect(root.kind, root.sel.sub, root.ctx, w.md, w.s, AnswerTest(w)))
  }

  lemma {:induction false} RootSeen(root: Root, w: World, planned: RootField)
    requires Answerable(root, w) && Planned(root, w.md, w.s) == Ok(planned)
    ensures planned.SelectRoot? ==> WellFormed(planned.query, false)
    ensures (planned.alias, SelectCorrect.RootJson(planned, w.db, w.stringify)) == SeeRoot(root, w)
  {
    if root.TableRoot? {
      AnswerTests(w);
      WeakerSelect(root.kind, root.sel.sub, root.ctx, w.md, w.s, AnswerTest(w), SeenTest(w));
      WeakerSelect(root.kind, root.sel.sub, root.ctx, w.md, w.s, AnswerTest(w), WellFormedTest());
      PlanWellFormed(root.ctx, root.kind, root.sel, w, false);
      SelectSeen(root.ctx, root.kind, root.sel, Meaning.NoOuter, w);
    }
  }

  /** Main result: the statement of the operation returns, under each alias, what
      the role may see. */
  lemma {:induction false} OperationSees(roots: seq<Root>, planned: seq<RootField>, w: World)
    requires |planned| == |roots| && forall i :: 0 <= i < |roots| ==> Answerable(roots[i], w) && Planned(roots[i], w.md, w.s) == Ok(planned[i])
    ensures EvalExpr(OperationSql(planned, 0, w.stringify).it, map[], w.db) ==
            Obj(seq(|roots|, i requires 0 <= i < |roots| => SeeRoot(roots[i], w)))
  {
    forall i | 0 <= i < |roots|
      ensures planned[i].SelectRoot? ==> WellFormed(planned[i].query, false)
      ensures (planned[i].alias, SelectCorrect.RootJson(planned[i], w.db, w.stringify)) == SeeRoot(roots[i], w)
    {
      RootSeen(roots[i], w, planned[i]);
    }
    SelectCorrect.OperationCorrect(planned, w.db, w.stringify);
  }
}
