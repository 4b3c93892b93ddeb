/** The planner means what the filter's JSON says. */
module FilterReadingCorrect {
  import opened Values
  import opened Database
  import opened Ir
  import opened Planner
  import opened Meaning
  import opened FilterReading
  import opened SessionNames
  import JsonAccess

  // ----- literals and session variables -----

  lemma {:induction false} LiteralSame(eng: Engine, v: Value, pgType: string)
    ensures LitValue(eng, v, pgType) == TypedLiteral(eng, v, pgType)
  {
  }

  /** Planning resolves an operand exactly when its variable exists, to its value. */
  lemma {:induction false} ResolvedSame(v: Value, q: Scope)
    ensures
      var r := ResolveSession(v, q.s, q.perm);
      var missing := q.perm && v.Text? && Refers(v.s) && forall x :: x in q.s.vars ==> !Names(v.s, x);
      (r == Err(MissingSessionVariable) <==> missing) && (r.Ok? <==> !missing) && (r.Ok? ==> r.value == Resolved(v, q))
  {
    if v.Text? {
      RefersSame(v.s);
      NamesLower(v.s, JsonAccess.Lower(v.s));
      forall x ensures Names(v.s, x) <==> x == JsonAccess.Lower(v.s) {
        NamesLower(v.s, x);
      }
    }
  }

  // ----- operators -----

  lemma {:induction false} BareIs(raw: string, op: string)
    requires OpName(raw) == "_" + op
    ensures Bare(raw) == op
  {
    assert ("_" + op)[1..] == op;
  }

  /** The order and equality operators. */
  predicate Arithmetic(op: string, bin: BinOp) {
    match op
    case "eq" => bin == Eq
    case "neq" => bin == Neq
    case "ne" => bin == Neq
    case "gt" => bin == Gt
    case "lt" => bin == Lt
    case "gte" => bin == Gte
    case "lte" => bin == Lte
    case _ => false
  }

  lemma {:induction false} ArithmeticReads(op: string, bin: BinOp, v: Value, cell: Value, pgType: string, eng: Engine, md: Metadata)
    requires Arithmetic(op, bin)
    ensures EvalBin(eng, bin, cell, TypedLiteral(eng, v, pgType)) == ValueReads(op, v, cell, pgType, eng, md)
    ensures !ComparesColumns(op) && Symbol(op) == ""
  {
  }

  lemma {:induction false} ArithmeticNames(raw: string, bin: BinOp)
    requires ScalarOp(OpName(raw)) == Some(bin) && !bin.Named?
    ensures Arithmetic(Bare(raw), bin)
  {
    match OpName(raw)
    case "_eq" => BareIs(raw, "eq");
    case "_neq" => BareIs(raw, "neq");
    case "_ne" => BareIs(raw, "ne");
    case "_gt" => BareIs(raw, "gt");
    case "_lt" => BareIs(raw, "lt");
    case "_gte" => BareIs(raw, "gte");
    case "_lte" => BareIs(raw, "lte");
    case _ =>
  }

  lemma {:induction false} PatternNames(raw: string, bin: BinOp)
    requires ScalarOp(OpName(raw)) == Some(bin) && bin.Named?
    ensures Symbol(Bare(raw)) == bin.symbol != ""
  {
    match OpName(raw)
    case "_like" => BareIs(raw, "like");
    case "_nlike" => BareIs(raw, "nlike");
    case "_ilike" => BareIs(raw, "ilike");
    case "_nilike" => BareIs(raw, "nilike");
    case _ => MorePatternNames(raw, bin);
  }

  lemma {:induction false} MorePatternNames(raw: string, bin: BinOp)
    requires ScalarOp(OpName(raw)) == Some(bin) && bin.Named?
    requires OpName(raw) != "_like" && OpName(raw) != "_nlike" && OpName(raw) != "_ilike" && OpName(raw) != "_nilike"
    ensures Symbol(Bare(raw)) == bin.symbol != ""
  {
    match OpName(raw)
    case "_similar" => BareIs(raw, "similar");
    case "_nsimilar" => BareIs(raw, "nsimilar");
    case "_regex" => RegexName(raw, "_regex", "regex", bin);
    case "_iregex" => RegexName(raw, "_iregex", "iregex", bin);
    case "_nregex" => RegexName(raw, "_nregex", "nregex", bin);
    case "_niregex" => RegexName(raw, "_niregex", "niregex", bin);
    case _ =>
  }

  lemma {:induction false} RegexName(raw: string, name: string, op: string, bin: BinOp)
    requires (name == "_regex" && op == "regex") || (name == "_iregex" && op == "iregex") || (name == "_nregex" && op == "nregex") ||
             (name == "_niregex" && op == "niregex")
    requires OpName(raw) == name == "_" + op && ScalarOp(name) == Some(bin)
    ensures Symbol(Bare(raw)) == bin.symbol != ""
  {
    BareIs(raw, op);
  }

  lemma {:induction false} SymbolIsNoColumn(op: string)
    requires Symbol(op) != ""
    ensures !ComparesColumns(op)
  {
  }

  lemma {:induction false} ScalarReads(raw: string, bin: BinOp, v: Value, cell: Value, pgType: string, ctx: TableCtx, q: Scope, row: Row, root: Row)
    requires ScalarOp(OpName(raw)) == Some(bin)
    ensures EvalBin(q.db.engine, bin, cell, TypedLiteral(q.db.engine, v, pgType)) == OpReads(raw, v, cell, pgType, ctx, q, row, root)
    ensures !ComparesColumns(Bare(raw))
  {
    if bin.Named? {
      PatternNames(raw, bin);
      SymbolIsNoColumn(Bare(raw));
    } else {
      ArithmeticNames(raw, bin);
      ArithmeticReads(Bare(raw), bin, v, cell, pgType, q.db.engine, q.md);
    }
  }

  predicate ColumnTest(op: string, bin: BinOp) {
    match op
    case "ceq" => bin == Eq
    case "cne" => bin == Neq
    case "cneq" => bin == Neq
    case "cgt" => bin == Gt
    case "clt" => bin == Lt
    case "cgte" => bin == Gte
    case "clte" => bin == Lte
    case _ => false
  }

  lemma {:induction false} ColumnNames(raw: string, bin: BinOp)
    requires ColumnOperator(OpName(raw)) == Some(bin)
    ensures ColumnTest(Bare(raw), bin)
  {
    match OpName(raw)
    case "_ceq" => BareIs(raw, "ceq");
    case "_cne" => BareIs(raw, "cne");
    case "_cneq" => BareIs(raw, "cneq");
    case "_cgt" => BareIs(raw, "cgt");
    case "_clt" => BareIs(raw, "clt");
    case "_cgte" => BareIs(raw, "cgte");
    case "_clte" => BareIs(raw, "clte");
  }

  lemma {:induction false} ColumnTestReads(op: string, bin: BinOp, eng: Engine, cell: Value, operand: Value)
    requires ColumnTest(op, bin)
    ensures ComparesColumns(op) && EvalBin(eng, bin, cell, operand) == OperandReads(op, eng, cell, operand)
  {
  }

  lemma {:induction false} LeadsFirst(rels: seq<Rel>, name: string, target: Option<(Table, Join)>)
    ensures Leads(rels, name, target) <==> FindRel(rels, name).Some? && FindRel(rels, name).value.target == target
    ensures Unnamed(rels, name) <==> FindRel(rels, name).None?
  {
    if rels != [] {
      LeadsFirst(rels[1..], name, target);
      assert forall i :: 1 <= i < |rels| ==> rels[i] == rels[1..][i - 1];
      if rels[0].name != name {
        LeadsRest(rels, name, target);
      } else if rels[0].target == target {
        assert Leads(rels, name, target);
      }
    }
  }

  lemma {:induction false} LeadsRest(rels: seq<Rel>, name: string, target: Option<(Table, Join)>)
    requires rels != [] && rels[0].name != name
    ensures Leads(rels, name, target) <==> Leads(rels[1..], name, target)
  {
    var rest := rels[1..];
    assert forall i :: 1 <= i < |rels| ==> rels[i] == rest[i - 1];
    if Leads(rels, name, target) {
      var i :| 0 <= i < |rels| && rels[i].name == name && rels[i].target == target && forall j :: 0 <= j < i ==> rels[j].name != name;
      assert rest[i - 1].name == name && forall j :: 0 <= j < i - 1 ==> rest[j] == rels[j + 1];
    }
    if Leads(rest, name, target) {
      var i :| 0 <= i < |rest| && rest[i].name == name && rest[i].target == target && forall j :: 0 <= j < i ==> rest[j].name != name;
      assert rels[i + 1].name == name;
    }
  }

  lemma {:induction false} LeadsSame(entry: TableEntry, name: string, t: Table, join: Join)
    ensures LeadsTo(entry, name, t, join) <==> RelTarget(entry, name) == Some((t, join))
  {
    LeadsFirst(entry.objectRels, name, Some((t, join)));
    LeadsFirst(entry.arrayRels, name, Some((t, join)));
  }

  lemma {:induction false} TargetSame(entry: TableEntry, name: string)
    ensures RelTarget(entry, name) == Target(entry, name)
  {
    var r, target := RelTarget(entry, name), Target(entry, name);
    if r.Some? {
      LeadsSame(entry, name, r.value.0, r.value.1);
    }
    if target.Some? {
      LeadsSame(entry, name, target.value.0, target.value.1);
    }
  }

  /** The operand of a column comparison, as the plan holds it. */
  function PlannedCell(op: CompareOp, db: Db, row: Row, root: Row): Value
    requires op.Column? || op.ColumnRel?
  {
    if op.Column? then Get(if op.fromRoot then root else row, op.column)
    else FirstColumn(JoinedRows(db, op.table, op.join, row), op.column)
  }

  lemma {:induction false} PathSame(bin: BinOp, items: seq<Value>, ctx: TableCtx, db: Db, row: Row, root: Row)
    requires ColumnCompare(bin, Arr(items), ctx).Ok?
    ensures
      var op := ColumnCompare(bin, Arr(items), ctx).value;
      (op.Column? || op.ColumnRel?) && op.op == bin && PlannedCell(op, db, row, root) == OperandCell(Arr(items), ctx, db, row, root)
  {
    assert forall i :: 0 <= i < |items| ==> items[i].Text?;
    if |items| == 2 {
      TargetSame(ctx.entry, items[0].s);
    }
  }

  lemma {:induction false} OperandSame(bin: BinOp, v: Value, ctx: TableCtx, db: Db, row: Row, root: Row)
    requires ColumnCompare(bin, v, ctx).Ok?
    ensures
      var op := ColumnCompare(bin, v, ctx).value;
      (op.Column? || op.ColumnRel?) && op.op == bin && PlannedCell(op, db, row, root) == OperandCell(v, ctx, db, row, root)
  {
    if v.Arr? {
      PathSame(bin, v.items, ctx, db, row, root);
    }
  }

  lemma {:induction false} PlannedCellTruth(op: CompareOp, pgType: string, cell: Value, db: Db, row: Row, root: Row)
    requires op.Column? || op.ColumnRel?
    ensures CompareTruth(op, pgType, cell, db, row, root) == EvalBin(db.engine, op.op, cell, PlannedCell(op, db, row, root))
  {
  }

  lemma {:induction false} ItemsSame(eng: Engine, cell: Value, items: seq<Value>, pgType: string)
    ensures Meaning.Member(cell, LitValues(eng, items, pgType)) == Any3(ItemTruths(cell, items, eng, pgType))
  {
    var vs, ts := LitValues(eng, items, pgType), ItemTruths(cell, items, eng, pgType);
    forall i | 0 <= i < |items| ensures ts[i] == Equal(cell, vs[i]) {
      LiteralSame(eng, items[i], pgType);
    }
    if items != [] && !cell.Null? {
      if cell in vs {
        var i :| 0 <= i < |vs| && vs[i] == cell;
        assert ts[i].True?;
      } else if Null in vs {
        var i :| 0 <= i < |vs| && vs[i] == Null;
        assert ts[i].Unknown?;
      }
    } else if items != [] {
      assert ts[0].Unknown?;
    }
  }

  // ----- one operator -----

  lemma {:induction false} ListParses(raw: string, v: Value, ctx: TableCtx, q: Scope)
    requires (OpName(raw) == "_in" || OpName(raw) == "_nin") && ParseOp(raw, v, ctx, q.md, q.s, q.perm).Ok?
    ensures
      var items := ListItems(Resolved(v, q), q.md);
      ParseOp(raw, v, ctx, q.md, q.s, q.perm).value == (if OpName(raw) == "_in" then In(items) else Nin(items))
  {
    ResolvedSame(v, q);
  }

  lemma {:induction false} NullParses(raw: string, v: Value, ctx: TableCtx, q: Scope)
    requires OpName(raw) == "_is_null" && ParseOp(raw, v, ctx, q.md, q.s, q.perm).Ok?
    ensures ParseOp(raw, v, ctx, q.md, q.s, q.perm).value == IsNull(Resolved(v, q) == Bool(true))
  {
    ResolvedSame(v, q);
  }

  lemma {:induction false} JsonParses(raw: string, v: Value, ctx: TableCtx, q: Scope)
    requires JsonOp(OpName(raw)).Some? && ParseOp(raw, v, ctx, q.md, q.s, q.perm).Ok?
    ensures
      var (bin, ty) := JsonOp(OpName(raw)).value;
      ParseOp(raw, v, ctx, q.md, q.s, q.perm).value == BinAs(bin, Resolved(v, q), ty)
  {
    ResolvedSame(v, q);
  }

  predicate TakesValue(op: string) {
    !ComparesColumns(op) && Symbol(op) == ""
  }

  lemma {:induction false} ListReads(op: string, x: Value, cell: Value, pgType: string, md: Metadata, db: Db, row: Row, root: Row)
    requires op == "in" || op == "nin"
    ensures TakesValue(op)
    ensures CompareTruth(if op == "in" then In(ListItems(x, md)) else Nin(ListItems(x, md)), pgType, cell, db, row, root) ==
            ValueReads(op, x, cell, pgType, db.engine, md)
  {
    ItemsSame(db.engine, cell, ListItems(x, md), pgType);
  }

  lemma {:induction false} NullReads(op: string, x: Value, cell: Value, pgType: string, md: Metadata, db: Db, row: Row, root: Row)
    requires op == "is_null"
    ensures TakesValue(op)
    ensures CompareTruth(IsNull(x == Bool(true)), pgType, cell, db, row, root) == ValueReads(op, x, cell, pgType, db.engine, md)
  {
  }

  predicate JsonTest(op: string, bin: BinOp, ty: string) {
    match op
    case "has_key" => bin == Named("?") && ty == "text"
    case "contains" => bin == Named("@>") && ty == "jsonb"
    case "contained_in" => bin == Named("<@") && ty == "jsonb"
    case _ => false
  }

  lemma {:induction false} JsonNames(raw: string, bin: BinOp, ty: string)
    requires JsonOp(OpName(raw)) == Some((bin, ty))
    ensures JsonTest(Bare(raw), bin, ty)
  {
    match OpName(raw)
    case "_has_key" => BareIs(raw, "has_key");
    case "_contains" => BareIs(raw, "contains");
    case "_contained_in" => BareIs(raw, "contained_in");
  }

  lemma {:induction false} JsonReads(op: string, bin: BinOp, ty: string, x: Value, cell: Value, pgType: string, md: Metadata, eng: Engine)
    requires JsonTest(op, bin, ty)
    ensures EvalBin(eng, bin, cell, TypedLiteral(eng, x, ty)) == ValueReads(op, x, cell, pgType, eng, md)
  {
  }

  lemma {:induction false} JsonTakesValue(op: string, bin: BinOp, ty: string)
    requires JsonTest(op, bin, ty)
    ensures TakesValue(op)
  {
  }

  lemma {:induction false} ScalarParses(raw: string, v: Value, ctx: TableCtx, q: Scope)
    requires ScalarOp(OpName(raw)).Some? && ParseOp(raw, v, ctx, q.md, q.s, q.perm).Ok?
    ensures ParseOp(raw, v, ctx, q.md, q.s, q.perm).value == Bin(ScalarOp(OpName(raw)).value, Resolved(v, q))
  {
    ResolvedSame(v, q);
  }

  lemma {:induction false} ScalarMeans(raw: string, v: Value, cell: Value, pgType: string, ctx: TableCtx, q: Scope, row: Row, root: Row)
    requires ScalarOp(OpName(raw)).Some? && ParseOp(raw, v, ctx, q.md, q.s, q.perm).Ok?
    ensures CompareTruth(ParseOp(raw, v, ctx, q.md, q.s, q.perm).value, pgType, cell, q.db, row, root) ==
            OpReads(raw, Operand(raw, v, q), cell, pgType, ctx, q, row, root)
  {
    var x := Resolved(v, q);
    ScalarParses(raw, v, ctx, q);
    ScalarReads(raw, ScalarOp(OpName(raw)).value, x, cell, pgType, ctx, q, row, root);
    LiteralSame(q.db.engine, x, pgType);
  }

  lemma {:induction false} ColumnMeans(raw: string, v: Value, cell: Value, pgType: string, ctx: TableCtx, q: Scope, row: Row, root: Row)
    requires ScalarOp(OpName(raw)).None? && ColumnOperator(OpName(raw)).Some? && ParseOp(raw, v, ctx, q.md, q.s, q.perm).Ok?
    ensures CompareTruth(ParseOp(raw, v, ctx, q.md, q.s, q.perm).value, pgType, cell, q.db, row, root) ==
            OpReads(raw, Operand(raw, v, q), cell, pgType, ctx, q, row, root)
  {
    var bin := ColumnOperator(OpName(raw)).value;
    ColumnNames(raw, bin);
    OperandSame(bin, v, ctx, q.db, row, root);
    PlannedCellTruth(ColumnCompare(bin, v, ctx).value, pgType, cell, q.db, row, root);
    ColumnTestReads(Bare(raw), bin, q.db.engine, cell, OperandCell(v, ctx, q.db, row, root));
  }

  lemma {:induction false} ListMeans(raw: string, v: Value, cell: Value, pgType: string, ctx: TableCtx, q: Scope, row: Row, root: Row)
    requires (OpName(raw) == "_in" || OpName(raw) == "_nin") && ParseOp(raw, v, ctx, q.md, q.s, q.perm).Ok?
    ensures CompareTruth(ParseOp(raw, v, ctx, q.md, q.s, q.perm).value, pgType, cell, q.db, row, root) ==
            OpReads(raw, Operand(raw, v, q), cell, pgType, ctx, q, row, root)
  {
    var op := if OpName(raw) == "_in" then "in" else "nin";
    BareIs(raw, op);
    ListParses(raw, v, ctx, q);
    ListReads(op, Resolved(v, q), cell, pgType, q.md, q.db, row, root);
  }

  lemma {:induction false} OtherMeans(raw: string, v: Value, cell: Value, pgType: string, ctx: TableCtx, q: Scope, row: Row, root: Row)
    requires ScalarOp(OpName(raw)).None? && ColumnOperator(OpName(raw)).None? && ParseOp(raw, v, ctx, q.md, q.s, q.perm).Ok?
    ensures CompareTruth(ParseOp(raw, v, ctx, q.md, q.s, q.perm).value, pgType, cell, q.db, row, root) ==
            OpReads(raw, Operand(raw, v, q), cell, pgType, ctx, q, row, root)
  {
    var x := Resolved(v, q);
    if JsonOp(OpName(raw)).Some? {
      var (bin, ty) := JsonOp(OpName(raw)).value;
      JsonParses(raw, v, ctx, q);
      JsonNames(raw, bin, ty);
      JsonTakesValue(Bare(raw), bin, ty);
      JsonReads(Bare(raw), bin, ty, x, cell, pgType, q.md, q.db.engine);
      LiteralSame(q.db.engine, x, ty);
    } else if OpName(raw) == "_is_null" {
      BareIs(raw, "is_null");
      NullParses(raw, v, ctx, q);
      NullReads(Bare(raw), x, cell, pgType, q.md, q.db, row, root);
    } else {
      ListMeans(raw, v, cell, pgType, ctx, q, row, root);
    }
  }

  /** A planned operator means what its JSON says. */
  lemma {:induction false} OpMeans(raw: string, v: Value, cell: Value, pgType: string, ctx: TableCtx, q: Scope, row: Row, root: Row)
    requires ParseOp(raw, v, ctx, q.md, q.s, q.perm).Ok?
    ensures CompareTruth(ParseOp(raw, v, ctx, q.md, q.s, q.perm).value, pgType, cell, q.db, row, root) ==
            OpReads(raw, Operand(raw, v, q), cell, pgType, ctx, q, row, root)
  {
    if ScalarOp(OpName(raw)).Some? {
      ScalarMeans(raw, v, cell, pgType, ctx, q, row, root);
    } else if ColumnOperator(OpName(raw)).Some? {
      ColumnMeans(raw, v, cell, pgType, ctx, q, row, root);
    } else {
      OtherMeans(raw, v, cell, pgType, ctx, q, row, root);
    }
  }
}
