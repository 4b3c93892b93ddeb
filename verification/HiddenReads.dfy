/** User filters and orderings that read cells the role is not shown: exactly
    when the answer depends on them, and the inputs that show it. */
module HiddenReads {
  import opened Values
  import opened Database
  import opened Ir
  import opened Planner
  import opened SelectPlan
  import opened Meaning
  import opened FilterJson
  import opened Sifting
  import opened RoleView
  import opened RoleRows
  import opened CellFilters
  import opened HiddenCells

  // ----- databases of one row that show the same -----

  function OneRow(md: Metadata, s: Session, eng: Engine, t: Table, r1: Row, r2: Row): Two {
    Two(md, s, eng, map[t := [r1]], map[t := [r2]], false, Stored)
  }

  lemma {:induction false} VisibleOnly(ctx: TableCtx, w: World, r: Row)
    requires RowVisible(ctx, w, r) && Rows(w.db, ctx.table) == [r]
    ensures VisibleRows(ctx, w) == [r]
  {
    assert [r][..0] == [];
    assert Sift([r][..0], Sees(ctx, w)) == [];
    assert [] + [r] == [r];
  }

  lemma {:induction false} OneRowAgrees(ctx: TableCtx, md: Metadata, s: Session, eng: Engine, r1: Row, r2: Row)
    requires TableCtxOf(md, ctx.table, s) == Some(ctx) && Alike(ctx, OneRow(md, s, eng, ctx.table, r1, r2), r1, r2)
    ensures ShownAgree(OneRow(md, s, eng, ctx.table, r1, r2))
  {
    var p := OneRow(md, s, eng, ctx.table, r1, r2);
    forall t | TableCtxOf(md, t, s).Some? ensures ShownAgreeAt(TableCtxOf(md, t, s).value, p) {
      if t == ctx.table {
        VisibleOnly(ctx, One(p), r1);
        VisibleOnly(ctx, Other(p), r2);
        assert AlikeIn(ctx, p)(r1, r2);
      }
    }
  }

  /** The same permissions pass both rows. */
  ghost predicate SamePasses(ctx: TableCtx, p: Two, r1: Row, r2: Row) {
    forall i :: 0 <= i < |ctx.perms| ==> PassesPermission(ctx.perms[i], ctx, One(p), r1) == PassesPermission(ctx.perms[i], ctx, Other(p), r2)
  }

  ghost predicate SameOff(column: string, r1: Row, r2: Row) {
    forall d :: d != column ==> Get(r1, d) == Get(r2, d)
  }

  /** Rows that differ only in a cell which is shown in neither look alike. */
  lemma {:induction false} HiddenDifference(ctx: TableCtx, column: string, p: Two, r1: Row, r2: Row)
    requires SameOff(column, r1, r2) && SamePasses(ctx, p, r1, r2)
    requires RowVisible(ctx, One(p), r1) && (ColumnAllowed(ctx, column) ==> !CellShown(ctx, column, One(p), r1))
    ensures Alike(ctx, p, r1, r2)
  {
    forall d | ColumnAllowed(ctx, d) ensures ShownCell(ctx, d, One(p), r1) == ShownCell(ctx, d, Other(p), r2) {
      assert CellShown(ctx, d, One(p), r1) <==> CellShown(ctx, d, Other(p), r2);
    }
  }

  // ----- filters that do not read a column -----

  /** Decided by the cells of the row other than `column`. */
  ghost predicate Ignores(e: BoolExp, column: string) {
    match e
    case And(es) => forall i :: 0 <= i < |es| ==> Ignores(es[i], column)
    case Or(es) => forall i :: 0 <= i < |es| ==> Ignores(es[i], column)
    case Not(x) => Ignores(x, column)
    case Compare(c, _, op) => c != column && !op.ColumnRel? && (op.Column? ==> op.column != column)
    case _ => false
  }

  lemma {:induction false} IgnoredSame(e: BoolExp, column: string, d1: Db, d2: Db, r1: Row, r2: Row)
    requires Ignores(e, column) && SameOff(column, r1, r2) && d1.engine == d2.engine
    ensures Holds(e, d1, r1, r1) == Holds(e, d2, r2, r2)
  {
    match e
    case And(es) =>
      forall i | 0 <= i < |es| { IgnoredSame(es[i], column, d1, d2, r1, r2); }
    case Or(es) =>
      forall i | 0 <= i < |es| { IgnoredSame(es[i], column, d1, d2, r1, r2); }
    case Not(x) => IgnoredSame(x, column, d1, d2, r1, r2);
    case Compare(_, _, _) =>
  }

  /** No permission of the role is decided by the column. */
  ghost predicate Unread(ctx: TableCtx, column: string, md: Metadata, s: Session) {
    forall i :: 0 <= i < |ctx.perms| ==> UnreadBy(ctx.perms[i], ctx, column, md, s)
  }

  ghost predicate UnreadBy(perm: SelectPermission, ctx: TableCtx, column: string, md: Metadata, s: Session) {
    var f := ParseBool(perm.filter, ctx.(perms := []), md, s, true);
    !Unrestricted(perm) && f.Ok? ==> Ignores(f.value, column)
  }

  lemma {:induction false} UnreadPasses(ctx: TableCtx, column: string, p: Two, r1: Row, r2: Row)
    requires Unread(ctx, column, p.md, p.s) && SameOff(column, r1, r2)
    ensures SamePasses(ctx, p, r1, r2)
  {
    forall i | 0 <= i < |ctx.perms|
      ensures PassesPermission(ctx.perms[i], ctx, One(p), r1) == PassesPermission(ctx.perms[i], ctx, Other(p), r2)
    {
      assert UnreadBy(ctx.perms[i], ctx, column, p.md, p.s);
      var f := ParseBool(ctx.perms[i].filter, ctx.(perms := []), p.md, p.s, true);
      if !Unrestricted(ctx.perms[i]) && f.Ok? {
        IgnoredSame(f.value, column, One(p).db, Other(p).db, r1, r2);
      }
    }
  }

  // ----- filters whose outcome the role could have computed -----

  function Where(v: Value): Args {
    Args(Some(v), None, None, None, [], false, [])
  }

  /** Two rows that look alike, in databases that look alike. */
  ghost predicate Counterparts(p: Two, ctx: TableCtx, md: Metadata, s: Session, eng: Engine, r1: Row, r2: Row) {
    p.md == md && p.s == s && p.eng == eng && ShownAgree(p) && At(ctx, p, r1, r2) &&
    r1 in Rows(One(p).db, ctx.table) && r2 in Rows(Other(p).db, ctx.table)
  }

  /** The filter never tells apart what the role is shown as the same. */
  ghost predicate Private(v: Value, ctx: TableCtx, md: Metadata, s: Session, eng: Engine) {
    forall p, r1, r2 :: Counterparts(p, ctx, md, s, eng, r1, r2) ==> Wanted(ctx, List, Where(v), One(p), r1) == Wanted(ctx, List, Where(v), Other(p), r2)
  }

  ghost function Alone(ctx: TableCtx, md: Metadata, s: Session, eng: Engine, r: Row): World {
    World(md, s, Db(map[ctx.table := [r]], eng), false, Stored)
  }

  /** A visible row whose cell is not shown. */
  ghost predicate Hides(ctx: TableCtx, column: string, md: Metadata, s: Session, eng: Engine, r: Row) {
    RowVisible(ctx, Alone(ctx, md, s, eng, r), r) && !CellShown(ctx, column, Alone(ctx, md, s, eng, r), r)
  }

  /** A granted column is hidden exactly in the visible rows that its guard rejects;
      in particular nowhere when it needs no guard. */
  lemma {:induction false} HidesExact(ctx: TableCtx, column: string, md: Metadata, s: Session, eng: Engine, r: Row)
    requires ctx.perms != [] && ColumnAllowed(ctx, column) && Guard(ctx, column, md, s).Ok?
    ensures
      var alone := Alone(ctx, md, s, eng, r);
      Hides(ctx, column, md, s, eng, r) <==> RowVisible(ctx, alone, r) && !Passes(Guard(ctx, column, md, s).value, alone.db, r)
  {
    if RowVisible(ctx, Alone(ctx, md, s, eng, r), r) {
      GuardMeaning(ctx, column, Alone(ctx, md, s, eng, r), r);
    }
  }

  /** A row that hides a column has counterparts for every two values there. */
  lemma {:induction false} HiddenPair(ctx: TableCtx, column: string, md: Metadata, s: Session, eng: Engine, r: Row, u: Value, v: Value)
    requires TableCtxOf(md, ctx.table, s) == Some(ctx) && Unread(ctx, column, md, s) && Hides(ctx, column, md, s, eng, r)
    ensures Counterparts(OneRow(md, s, eng, ctx.table, r[column := u], r[column := v]), ctx, md, s, eng, r[column := u], r[column := v])
  {
    var r1, r2 := r[column := u], r[column := v];
    var p, q := OneRow(md, s, eng, ctx.table, r1, r2), OneRow(md, s, eng, ctx.table, r, r1);
    UnreadPasses(ctx, column, q, r, r1);
    HiddenDifference(ctx, column, q, r, r1);
    assert One(p) == Other(q);
    UnreadPasses(ctx, column, p, r1, r2);
    assert !CellShown(ctx, column, One(p), r1);
    HiddenDifference(ctx, column, p, r1, r2);
    OneRowAgrees(ctx, md, s, eng, r1, r2);
  }

  /** Rows that look alike have the same cell, unless one of them hides it. */
  lemma {:induction false} ShownEqual(ctx: TableCtx, column: string, p: Two, r1: Row, r2: Row)
    requires Alike(ctx, p, r1, r2) && ColumnAllowed(ctx, column)
    requires CellShown(ctx, column, One(p), r1) && CellShown(ctx, column, Other(p), r2)
    ensures Get(r1, column) == Get(r2, column)
  {
    assert ShownCell(ctx, column, One(p), r1) == ShownCell(ctx, column, Other(p), r2);
  }

  /** What a row hides does not depend on the rest of the database. */
  lemma {:induction false} NotHidden(ctx: TableCtx, column: string, md: Metadata, s: Session, eng: Engine, w: World, r: Row)
    requires w.md == md && w.s == s && w.db.engine == eng && Unread(ctx, column, md, s) && RowVisible(ctx, w, r)
    requires !Hides(ctx, column, md, s, eng, r)
    ensures CellShown(ctx, column, w, r)
  {
    var p := Two(md, s, eng, w.db.tables, map[ctx.table := [r]], w.stringify, w.counts);
    UnreadPasses(ctx, column, p, r, r);
    var alone := Alone(ctx, md, s, eng, r);
    assert One(p) == w;
    forall i | 0 <= i < |ctx.perms| ensures PassesPermission(ctx.perms[i], ctx, w, r) == PassesPermission(ctx.perms[i], ctx, alone, r) {
      assert PassesPermission(ctx.perms[i], ctx, Other(p), r) == PassesPermission(ctx.perms[i], ctx, alone, r);
    }
  }

  /** Main result for comparisons with a literal: the filter is private exactly
      when no row hides the column it compares. */
  lemma {:induction false} ComparisonPrivateExact(ctx: TableCtx, column: string, v: Value, md: Metadata, s: Session, eng: Engine)
    requires TableCtxOf(md, ctx.table, s) == Some(ctx) && PlainKey(column) && ColumnAllowed(ctx, column) && Unread(ctx, column, md, s)
    requires !LitValue(eng, v, ctx.entry.columns[column]).Null?
    ensures Private(Obj([(column, Obj([("_eq", v)]))]), ctx, md, s, eng) <==> forall r: Row :: !Hides(ctx, column, md, s, eng, r)
  {
    var json := Obj([(column, Obj([("_eq", v)]))]);
    if Private(json, ctx, md, s, eng) {
      forall r: Row ensures !Hides(ctx, column, md, s, eng, r) {
        if Hides(ctx, column, md, s, eng, r) {
          var u := LitValue(eng, v, ctx.entry.columns[column]);
          var r1, r2 := r[column := u], r[column := Null];
          var p := OneRow(md, s, eng, ctx.table, r1, r2);
          HiddenPair(ctx, column, md, s, eng, r, u, Null);
          WhereReadsHiddenCell(ctx, column, v, Where(json), One(p), r1);
          WhereReadsHiddenCell(ctx, column, v, Where(json), Other(p), r2);
          assert false;
        }
      }
    }
    if forall r: Row :: !Hides(ctx, column, md, s, eng, r) {
      forall p, r1, r2 | Counterparts(p, ctx, md, s, eng, r1, r2)
        ensures Wanted(ctx, List, Where(json), One(p), r1) == Wanted(ctx, List, Where(json), Other(p), r2)
      {
        NotHidden(ctx, column, md, s, eng, One(p), r1);
        NotHidden(ctx, column, md, s, eng, Other(p), r2);
        ShownEqual(ctx, column, p, r1, r2);
        WhereReadsHiddenCell(ctx, column, v, Where(json), One(p), r1);
        WhereReadsHiddenCell(ctx, column, v, Where(json), Other(p), r2);
      }
    }
  }

  // ----- comparisons with another column -----

  /** `{column: {_ceq: operand}}` */
  function CeqJson(column: string, operand: string): Value {
    Obj([(column, Obj([("_ceq", Text(operand))]))])
  }

  /** The operand column is read whether or not the role has it. */
  lemma {:induction false} OperandRead(ctx: TableCtx, column: string, operand: string, w: World, row: Row)
    requires PlainKey(column) && ColumnAllowed(ctx, column)
    ensures Wanted(ctx, List, Where(CeqJson(column, operand)), w, row) <==>
            EvalBin(w.db.engine, Eq, Get(row, column), Get(row, operand)).True?
  {
    SingleConjunct(column, Obj([("_ceq", Text(operand))]), ctx, w.md, w.s, false);
    assert OpName("_ceq") == "_ceq" && ScalarOp("_ceq").None? && ColumnOperator("_ceq") == Some(Eq);
    SingleOp("_ceq", Text(operand), ctx, w.md, w.s, false, Column(Eq, operand, false));
    var e := Compare(column, ctx.entry.columns[column], Column(Eq, operand, false));
    assert UserWhere(ctx, List, Where(CeqJson(column, operand)), w.md, w.s) == Ok([e]);
    assert forall i :: 0 <= i < 1 ==> [e][i] == e;
  }

  /** Main result for `_ceq`: the filter is private exactly when no row hides the
      operand beside a value of the compared column. */
  lemma {:induction false} OperandPrivateExact(ctx: TableCtx, column: string, operand: string, md: Metadata, s: Session, eng: Engine)
    requires TableCtxOf(md, ctx.table, s) == Some(ctx) && PlainKey(column) && Readable(ctx, column, md, s)
    requires column != operand && operand in ctx.entry.columns && Unread(ctx, operand, md, s)
    ensures Private(CeqJson(column, operand), ctx, md, s, eng) <==>
            forall r: Row :: Hides(ctx, operand, md, s, eng, r) ==> Get(r, column).Null?
  {
    if Private(CeqJson(column, operand), ctx, md, s, eng) {
      forall r: Row | Hides(ctx, operand, md, s, eng, r) ensures Get(r, column).Null? {
        if !Get(r, column).Null? {
          HiddenOperandTold(ctx, column, operand, md, s, eng, r);
          assert false;
        }
      }
    }
    if forall r: Row :: Hides(ctx, operand, md, s, eng, r) ==> Get(r, column).Null? {
      forall p, r1, r2 | Counterparts(p, ctx, md, s, eng, r1, r2)
        ensures Wanted(ctx, List, Where(CeqJson(column, operand)), One(p), r1) == Wanted(ctx, List, Where(CeqJson(column, operand)), Other(p), r2)
      {
        ShownOperandSame(ctx, column, operand, md, s, eng, p, r1, r2);
      }
    }
  }

  /** A row that hides the operand gives two databases that look alike and that the
      filter tells apart. */
  lemma {:induction false} HiddenOperandTold(ctx: TableCtx, column: string, operand: string, md: Metadata, s: Session, eng: Engine, r: Row)
    requires TableCtxOf(md, ctx.table, s) == Some(ctx) && PlainKey(column) && ColumnAllowed(ctx, column)
    requires column != operand && Unread(ctx, operand, md, s) && Hides(ctx, operand, md, s, eng, r) && !Get(r, column).Null?
    ensures
      var r1, r2 := r[operand := Get(r, column)], r[operand := Null];
      var p := OneRow(md, s, eng, ctx.table, r1, r2);
      Counterparts(p, ctx, md, s, eng, r1, r2) && Wanted(ctx, List, Where(CeqJson(column, operand)), One(p), r1) &&
      !Wanted(ctx, List, Where(CeqJson(column, operand)), Other(p), r2)
  {
    var r1, r2 := r[operand := Get(r, column)], r[operand := Null];
    var p := OneRow(md, s, eng, ctx.table, r1, r2);
    HiddenPair(ctx, operand, md, s, eng, r, Get(r, column), Null);
    OperandRead(ctx, column, operand, One(p), r1);
    OperandRead(ctx, column, operand, Other(p), r2);
  }

  lemma {:induction false} ShownOperandSame(ctx: TableCtx, column: string, operand: string, md: Metadata, s: Session, eng: Engine, p: Two,
    r1: Row, r2: Row)
    requires PlainKey(column) && Readable(ctx, column, md, s) && operand in ctx.entry.columns && Unread(ctx, operand, md, s)
    requires Counterparts(p, ctx, md, s, eng, r1, r2)
    requires forall r: Row :: Hides(ctx, operand, md, s, eng, r) ==> Get(r, column).Null?
    ensures Wanted(ctx, List, Where(CeqJson(column, operand)), One(p), r1) == Wanted(ctx, List, Where(CeqJson(column, operand)), Other(p), r2)
  {
    OperandRead(ctx, column, operand, One(p), r1);
    OperandRead(ctx, column, operand, Other(p), r2);
    ReadableSame(ctx, column, p, r1, r2);
    if !Get(r1, column).Null? {
      NotHidden(ctx, operand, md, s, eng, One(p), r1);
      NotHidden(ctx, operand, md, s, eng, Other(p), r2);
      ShownEqual(ctx, operand, p, r1, r2);
    }
  }

  /** A column that no permission grants is hidden in every visible row, so every
      visible row with a value in the compared column lets it be probed. */
  lemma {:induction false} UngrantedOperandTold(ctx: TableCtx, column: string, operand: string, md: Metadata, s: Session, eng: Engine, r: Row)
    requires TableCtxOf(md, ctx.table, s) == Some(ctx) && PlainKey(column) && ColumnAllowed(ctx, column)
    requires operand in ctx.entry.columns && !ColumnAllowed(ctx, operand) && Unread(ctx, operand, md, s)
    requires RowVisible(ctx, Alone(ctx, md, s, eng, r), r) && !Get(r, column).Null?
    ensures
      var r1, r2 := r[operand := Get(r, column)], r[operand := Null];
      var p := OneRow(md, s, eng, ctx.table, r1, r2);
      Counterparts(p, ctx, md, s, eng, r1, r2) && Wanted(ctx, List, Where(CeqJson(column, operand)), One(p), r1) &&
      !Wanted(ctx, List, Where(CeqJson(column, operand)), Other(p), r2)
  {
    HiddenOperandTold(ctx, column, operand, md, s, eng, r);
  }

  // ----- the inputs that show it -----

  /** A role with two parents, as in `HiddenCells.HalfGranted`. */
  ghost predicate HalfGrantedAt(ctx: TableCtx, column: string, other: string, md: Metadata, s: Session) {
    TableCtxOf(md, ctx.table, s) == Some(ctx) && ctx.perms == HalfGranted(column, other) &&
    PlainKey(column) && column in ctx.entry.columns && column != other
  }

  /** It sees every row, and the column only where that is NULL. */
  lemma {:induction false} HalfGrantedView(ctx: TableCtx, column: string, other: string, w: World, r: Row)
    requires HalfGrantedAt(ctx, column, other, w.md, w.s)
    ensures PassesPermission(ctx.perms[1], ctx, w, r) && (PassesPermission(ctx.perms[0], ctx, w, r) <==> Get(r, column).Null?)
    ensures RowVisible(ctx, w, r) && ColumnAllowed(ctx, column) && (CellShown(ctx, column, w, r) <==> Get(r, column).Null?)
  {
    IsNullParses(column, ctx.(perms := []), w.md, w.s);
    assert Unrestricted(ctx.perms[1]);
    assert Grants(ctx.perms[0], column) && !Grants(ctx.perms[1], column);
  }

  /** Two rows in which this role is shown nothing but NULL; the filter
      `{column: {_eq: v}}` wants one of them. */
  lemma {:induction false} WhereTellsHiddenCells(ctx: TableCtx, column: string, other: string, v: Value, u1: Value, u2: Value, md: Metadata,
    s: Session, eng: Engine)
    requires HalfGrantedAt(ctx, column, other, md, s) && u1 == LitValue(eng, v, ctx.entry.columns[column])
    requires !u1.Null? && !u2.Null? && u1 != u2
    ensures
      var r1, r2 := map[column := u1], map[column := u2];
      var p, json := OneRow(md, s, eng, ctx.table, r1, r2), Obj([(column, Obj([("_eq", v)]))]);
      Counterparts(p, ctx, md, s, eng, r1, r2) && ShownCell(ctx, column, One(p), r1) == ShownCell(ctx, column, Other(p), r2) == Null &&
      Wanted(ctx, List, Where(json), One(p), r1) && !Wanted(ctx, List, Where(json), Other(p), r2)
  {
    var r1: Row, r2: Row := map[column := u1], map[column := u2];
    var p, json := OneRow(md, s, eng, ctx.table, r1, r2), Obj([(column, Obj([("_eq", v)]))]);
    HalfGrantedView(ctx, column, other, One(p), r1);
    HalfGrantedView(ctx, column, other, Other(p), r2);
    HiddenDifference(ctx, column, p, r1, r2);
    OneRowAgrees(ctx, md, s, eng, r1, r2);
    WhereReadsHiddenCell(ctx, column, v, Where(json), One(p), r1);
    WhereReadsHiddenCell(ctx, column, v, Where(json), Other(p), r2);
  }
}
