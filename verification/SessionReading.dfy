/** Session variables in permission filters: planning fails for want of a variable
    only where an operand refers to one that is missing, and it never succeeds
    there; and what the smallest such filter passes. */
module SessionReading {
  import opened Values
  import opened Database
  import opened Ir
  import opened Planner
  import opened Meaning
  import opened FilterJson
  import opened FilterReading
  import opened SessionNames
  import opened FilterReadingCorrect
  import opened FilterMeaning
  import JsonAccess

  // ----- where a variable is missing -----

  ghost predicate Missing(v: Value, q: Scope) {
    v.Text? && Refers(v.s) && forall x :: x in q.s.vars ==> !Names(v.s, x)
  }

  /** Some operand refers to a variable that the session does not have. */
  ghost predicate Lacks(v: Value, ctx: TableCtx, q: Scope)
    decreases v, 1
  {
    v.Obj? && exists i :: 0 <= i < |v.fields| && FieldLacks(v.fields[i], ctx, q)
  }

  ghost predicate FieldLacks(field: (string, Value), ctx: TableCtx, q: Scope)
    decreases field, 0
  {
    var (key, sub) := field;
    if key == "_and" || key == "$and" || key == "_or" || key == "$or" then
      sub.Arr? && exists i :: 0 <= i < |sub.items| && Lacks(sub.items[i], ctx, q)
    else if key == "_not" || key == "$not" then Lacks(sub, ctx, q)
    else if key == "_exists" then ExistsLacks(sub, q)
    else if IsColumn(ctx, key, q.perm) then OpsLack(sub, q)
    else
      var target := Target(ctx.entry, key);
      target.Some? && target.value.0 in q.md.tables && Lacks(sub, TableAt(target.value.0, q), q)
  }

  ghost predicate ExistsLacks(sub: Value, q: Scope)
    decreases sub, 2
  {
    var table, where := JsonAccess.Member(sub, "_table"), JsonAccess.Member(sub, "_where");
    table.Some? && where.Some? && NamedTable(table.value) in q.md.tables && Lacks(where.value, TableAt(NamedTable(table.value), q), q)
  }

  ghost predicate OpsLack(sub: Value, q: Scope) {
    if sub.Obj? then exists i :: 0 <= i < |sub.fields| && OpLacks(sub.fields[i].0, sub.fields[i].1, q) else Missing(sub, q)
  }

  ghost predicate OpLacks(raw: string, v: Value, q: Scope) {
    !ComparesColumns(Bare(raw)) && Missing(v, q)
  }

  /** A failure for want of a variable has its reason, and a success has none. */
  ghost predicate Explained<T>(r: Result<T, PlanError>, lacks: bool) {
    (r.Ok? ==> !lacks) && (r == Err(MissingSessionVariable) ==> lacks)
  }

  lemma {:induction false} ResolveExplained(v: Value, q: Scope)
    requires q.perm
    ensures Explained(ResolveSession(v, q.s, q.perm), Missing(v, q))
  {
    ResolvedSame(v, q);
  }

  lemma {:induction false} ComparesByName(raw: string)
    ensures ScalarOp(OpName(raw)).Some? ==> !ComparesColumns(Bare(raw))
    ensures ScalarOp(OpName(raw)).None? && ColumnOperator(OpName(raw)).Some? ==> ComparesColumns(Bare(raw))
  {
    if ScalarOp(OpName(raw)).Some? {
      var bin := ScalarOp(OpName(raw)).value;
      if bin.Named? {
        PatternNames(raw, bin);
        SymbolIsNoColumn(Bare(raw));
      } else {
        ArithmeticNames(raw, bin);
        ArithmeticIsNoColumn(Bare(raw), bin);
      }
    } else if ColumnOperator(OpName(raw)).Some? {
      var bin := ColumnOperator(OpName(raw)).value;
      ColumnNames(raw, bin);
      ColumnTestIsColumn(Bare(raw), bin);
    }
  }

  lemma {:induction false} ArithmeticIsNoColumn(op: string, bin: BinOp)
    requires Arithmetic(op, bin)
    ensures !ComparesColumns(op)
  {
  }

  lemma {:induction false} ColumnTestIsColumn(op: string, bin: BinOp)
    requires ColumnTest(op, bin)
    ensures ComparesColumns(op)
  {
  }

  /** Other operators either take a value or do not exist. */
  lemma {:induction false} OtherIsNoColumn(raw: string)
    requires ScalarOp(OpName(raw)).None? && ColumnOperator(OpName(raw)).None?
    ensures JsonOp(OpName(raw)).Some? || OpName(raw) == "_in" || OpName(raw) == "_nin" || OpName(raw) == "_is_null" ==>
            !ComparesColumns(Bare(raw))
  {
    if JsonOp(OpName(raw)).Some? {
      var (bin, ty) := JsonOp(OpName(raw)).value;
      JsonNames(raw, bin, ty);
      JsonTakesValue(Bare(raw), bin, ty);
    } else if OpName(raw) == "_in" {
      BareIs(raw, "in");
    } else if OpName(raw) == "_nin" {
      BareIs(raw, "nin");
    } else if OpName(raw) == "_is_null" {
      BareIs(raw, "is_null");
    }
  }

  lemma {:induction false} OpExplained(raw: string, v: Value, ctx: TableCtx, q: Scope)
    requires q.perm
    ensures Explained(ParseOp(raw, v, ctx, q.md, q.s, q.perm), OpLacks(raw, v, q))
  {
    ResolveExplained(v, q);
    ComparesByName(raw);
    if ScalarOp(OpName(raw)).None? && ColumnOperator(OpName(raw)).None? {
      OtherIsNoColumn(raw);
    }
  }

  ghost predicate SomeLacks(ops: seq<(string, Value)>, lack: (string, Value) -> bool) {
    exists i :: 0 <= i < |ops| && lack(ops[i].0, ops[i].1)
  }

  lemma {:induction false} OpListExplained(ops: seq<(string, Value)>, ctx: TableCtx, q: Scope, lack: (string, Value) -> bool)
    requires forall raw, v :: Explained(ParseOp(raw, v, ctx, q.md, q.s, q.perm), lack(raw, v))
    ensures Explained(ParseOpList(ops, ctx, q.md, q.s, q.perm), SomeLacks(ops, lack))
  {
    if ops != [] {
      var n := |ops| - 1;
      OpListExplained(ops[..n], ctx, q, lack);
      LackSnoc(ops, lack);
      assert Explained(ParseOp(ops[n].0, ops[n].1, ctx, q.md, q.s, q.perm), lack(ops[n].0, ops[n].1));
    }
  }

  lemma {:induction false} LackSnoc(ops: seq<(string, Value)>, lack: (string, Value) -> bool)
    requires ops != []
    ensures SomeLacks(ops, lack) <==> SomeLacks(ops[..|ops| - 1], lack) || lack(ops[|ops| - 1].0, ops[|ops| - 1].1)
  {
    var n := |ops| - 1;
    if SomeLacks(ops[..n], lack) {
      var i :| 0 <= i < n && lack(ops[..n][i].0, ops[..n][i].1);
      assert ops[i] == ops[..n][i];
    }
    if SomeLacks(ops, lack) && !lack(ops[n].0, ops[n].1) {
      var i :| 0 <= i < |ops| && lack(ops[i].0, ops[i].1);
      assert ops[..n][i] == ops[i];
    }
  }

  lemma {:induction false} OpsExplained(sub: Value, ctx: TableCtx, q: Scope)
    requires q.perm
    ensures Explained(ParseOps(sub, ctx, q.md, q.s, q.perm), OpsLack(sub, q))
  {
    if sub.Obj? {
      var lack := (raw: string, v: Value) => OpLacks(raw, v, q);
      forall raw, v ensures Explained(ParseOp(raw, v, ctx, q.md, q.s, q.perm), lack(raw, v)) {
        OpExplained(raw, v, ctx, q);
      }
      OpListExplained(sub.fields, ctx, q, lack);
    } else {
      ResolveExplained(sub, q);
    }
  }

  // ----- whole filters -----

  /** Main result: a planned filter lacks no variable, and planning reports a missing
      one only where some operand lacks it. */
  lemma {:induction false} FilterExplained(v: Value, ctx: TableCtx, q: Scope)
    requires q.perm
    ensures Explained(ParseBool(v, ctx, q.md, q.s, q.perm), Lacks(v, ctx, q))
    decreases v, 2
  {
    if v.Obj? {
      FieldsExplained(v.fields, ctx, q);
    }
  }

  ghost predicate SomeFieldLacks(fields: seq<(string, Value)>, ctx: TableCtx, q: Scope) {
    exists i :: 0 <= i < |fields| && FieldLacks(fields[i], ctx, q)
  }

  ghost predicate SomeItemLacks(items: seq<Value>, ctx: TableCtx, q: Scope) {
    exists i :: 0 <= i < |items| && Lacks(items[i], ctx, q)
  }

  lemma {:induction false} FieldsExplained(fields: seq<(string, Value)>, ctx: TableCtx, q: Scope)
    requires q.perm
    ensures Explained(Conjuncts(fields, ctx, q.md, q.s, q.perm), SomeFieldLacks(fields, ctx, q))
    decreases fields, 1
  {
    if fields != [] {
      var n := |fields| - 1;
      FieldsExplained(fields[..n], ctx, q);
      FieldExplained(fields[n], ctx, q);
      FieldLackSnoc(fields, ctx, q);
    }
  }

  lemma {:induction false} FieldLackSnoc(fields: seq<(string, Value)>, ctx: TableCtx, q: Scope)
    requires fields != []
    ensures SomeFieldLacks(fields, ctx, q) <==> SomeFieldLacks(fields[..|fields| - 1], ctx, q) || FieldLacks(fields[|fields| - 1], ctx, q)
  {
    var n := |fields| - 1;
    if SomeFieldLacks(fields[..n], ctx, q) {
      var i :| 0 <= i < n && FieldLacks(fields[..n][i], ctx, q);
      assert fields[i] == fields[..n][i];
    }
    if SomeFieldLacks(fields, ctx, q) && !FieldLacks(fields[n], ctx, q) {
      var i :| 0 <= i < |fields| && FieldLacks(fields[i], ctx, q);
      assert fields[..n][i] == fields[i];
    }
  }

  lemma {:induction false} ItemsExplained(items: seq<Value>, ctx: TableCtx, q: Scope)
    requires q.perm
    ensures Explained(ParseAll(items, ctx, q.md, q.s, q.perm), SomeItemLacks(items, ctx, q))
    decreases items, 0
  {
    if items != [] {
      var n := |items| - 1;
      ItemsExplained(items[..n], ctx, q);
      FilterExplained(items[n], ctx, q);
      ItemLackSnoc(items, ctx, q);
    }
  }

  lemma {:induction false} ItemLackSnoc(items: seq<Value>, ctx: TableCtx, q: Scope)
    requires items != []
    ensures SomeItemLacks(items, ctx, q) <==> SomeItemLacks(items[..|items| - 1], ctx, q) || Lacks(items[|items| - 1], ctx, q)
  {
    var n := |items| - 1;
    if SomeItemLacks(items[..n], ctx, q) {
      var i :| 0 <= i < n && Lacks(items[..n][i], ctx, q);
      assert items[i] == items[..n][i];
    }
    if SomeItemLacks(items, ctx, q) && !Lacks(items[n], ctx, q) {
      var i :| 0 <= i < |items| && Lacks(items[i], ctx, q);
      assert items[..n][i] == items[i];
    }
  }

  lemma {:induction false} FieldExplained(field: (string, Value), ctx: TableCtx, q: Scope)
    requires q.perm
    ensures Explained(Conjunct(field, ctx, q.md, q.s, q.perm), FieldLacks(field, ctx, q))
    decreases field, 0
  {
    var (key, sub) := field;
    if NamesField(key) {
      NamedExplained(key, sub, ctx, q);
    } else if key == "_not" || key == "$not" {
      FilterExplained(sub, ctx, q);
    } else if key == "_exists" {
      ExistsExplained(sub, q);
    } else if sub.Arr? {
      ItemsExplained(sub.items, ctx, q);
    }
  }

  lemma {:induction false} NamedExplained(key: string, sub: Value, ctx: TableCtx, q: Scope)
    requires q.perm && NamesField(key)
    ensures Explained(Conjunct((key, sub), ctx, q.md, q.s, q.perm), FieldLacks((key, sub), ctx, q))
    decreases sub, 4
  {
    if IsColumn(ctx, key, q.perm) {
      OpsExplained(sub, ctx, q);
    } else {
      TargetSame(ctx.entry, key);
      var target := Target(ctx.entry, key);
      if target.Some? && target.value.0 in q.md.tables {
        FilterExplained(sub, TableAt(target.value.0, q), q);
      }
    }
  }

  lemma {:induction false} ExistsExplained(sub: Value, q: Scope)
    requires q.perm
    ensures Explained(ExistsPredicate(sub, q.md, q.s, q.perm), ExistsLacks(sub, q))
    decreases sub, 3
  {
    var table, where := JsonAccess.Member(sub, "_table"), JsonAccess.Member(sub, "_where");
    if table.Some? && where.Some? && NamedTable(table.value) in q.md.tables {
      FilterExplained(where.value, TableAt(NamedTable(table.value), q), q);
    }
  }

  // ----- one reference -----

  /** `{column: {_eq: reference}}` */
  function ReferenceJson(column: string, reference: string): Value {
    Obj([(column, Obj([("_eq", Text(reference))]))])
  }

  lemma {:induction false} ReferenceParses(column: string, reference: string, ctx: TableCtx, q: Scope)
    requires q.perm && PlainKey(column) && column in ctx.entry.columns
    ensures
      var x := ResolveSession(Text(reference), q.s, true);
      ParseBool(ReferenceJson(column, reference), ctx, q.md, q.s, true) ==
      if x.Err? then Err(x.error) else Ok(Compare(column, ctx.entry.columns[column], Bin(Eq, x.value)))
  {
    var ops := [("_eq", Text(reference))];
    SingleConjunct(column, Obj(ops), ctx, q.md, q.s, true);
    assert OpName("_eq") == "_eq" && ScalarOp("_eq") == Some(Eq);
    var x := ResolveSession(Text(reference), q.s, true);
    if x.Ok? {
      SingleOp("_eq", Text(reference), ctx, q.md, q.s, true, Bin(Eq, x.value));
    } else {
      assert ops[..0] == [];
      assert ParseOpList(ops[..0], ctx, q.md, q.s, true) == Ok([]);
      assert ParseOpList(ops, ctx, q.md, q.s, true) == Err(x.error);
    }
  }

  /** The filter passes exactly the rows whose cell is the variable's value. */
  lemma {:induction false} ReferencePasses(column: string, reference: string, variable: string, ctx: TableCtx, q: Scope, row: Row)
    requires q.perm && PlainKey(column) && column in ctx.entry.columns
    requires Refers(reference) && variable in q.s.vars && Names(reference, variable)
    ensures
      var e := ParseBool(ReferenceJson(column, reference), ctx, q.md, q.s, true);
      e.Ok? &&
      (Passes(Some(e.value), q.db, row) <==>
       !Get(row, column).Null? && Get(row, column) == q.db.engine.cast(Text(q.s.vars[variable]), ctx.entry.columns[column]))
  {
    ResolvedSame(Text(reference), q);
    NamesLower(reference, variable);
    forall x | Names(reference, x) ensures x == variable {
      NamesLower(reference, x);
    }
    ReferenceParses(column, reference, ctx, q);
  }

  /** Without the variable there is no plan. */
  lemma {:induction false} ReferenceMissing(column: string, reference: string, ctx: TableCtx, q: Scope)
    requires q.perm && PlainKey(column) && column in ctx.entry.columns && Missing(Text(reference), q)
    ensures ParseBool(ReferenceJson(column, reference), ctx, q.md, q.s, true) == Err(MissingSessionVariable)
  {
    ResolvedSame(Text(reference), q);
    ReferenceParses(column, reference, ctx, q);
  }
}
