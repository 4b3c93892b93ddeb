/** What an insert stores, read from its objects and the role's permission: every
    given cell of every new row, and the check that none may fail. */
module InsertReading {
  import opened Values
  import opened Database
  import opened Planner
  import opened Storage
  import opened JsonAccess
  import opened InsertPlan
  import opened FilterReading
  import opened FilterReadingCorrect
  import opened MutationReading
  import MutationPlan

  // ----- presets -----

  lemma {:induction false} LookupSnoc(fields: seq<(string, Value)>, key: string)
    requires fields != []
    ensures
      var n := |fields| - 1;
      Lookup(fields, key) ==
      if Lookup(fields[..n], key).Some? then Lookup(fields[..n], key) else if fields[n].0 == key then Some(fields[n].1) else None
  {
    var n := |fields| - 1;
    if n > 0 {
      assert fields[1..][..n - 1] == fields[..n][1..] && fields[1..][n - 1] == fields[n];
      LookupSnoc(fields[1..], key);
    }
  }

  /** The resolved preset of a column is its first one, with its variable's value. */
  lemma {:induction false} PresetFound(preset: seq<(string, Value)>, entry: TableEntry, q: Scope, c: string)
    requires Presets(preset, entry, q.s).Ok? && c in entry.columns
    ensures
      var found := Lookup(preset, c);
      Lookup(Presets(preset, entry, q.s).value, c) == if found.None? then None else Some(Resolved(found.value, q.(perm := true)))
  {
    if preset != [] {
      var n := |preset| - 1;
      PresetFound(preset[..n], entry, q, c);
      LookupSnoc(preset, c);
      ResolvedSame(preset[n].1, q.(perm := true));
      var presets := Presets(preset, entry, q.s).value;
      if preset[n].0 in entry.columns {
        var before := Presets(preset[..n], entry, q.s).value;
        assert presets[..|presets| - 1] == before;
        LookupSnoc(presets, c);
      }
    }
  }

  // ----- what is given -----

  /** The value a new row is given in a column: the permission's preset, else the
      object's own value; nothing leaves it to the column's default. */
  ghost function GivenCell(o: Value, preset: seq<(string, Value)>, q: Scope, c: string): Option<Value> {
    if Lookup(preset, c).Some? then Some(Resolved(Lookup(preset, c).value, q.(perm := true))) else Lookup(FieldsOf(o), c)
  }

  /** The new row has every value it is given and does not fail the check. */
  ghost predicate InsertReads(o: Value, perm: InsertPermission, ctx: TableCtx, q: Scope, names: seq<string>, row: Row) {
    (forall c :: c in names && c in ctx.entry.columns && GivenCell(o, perm.preset, q, c).Some? ==>
      Get(row, c) == TypedLiteral(q.db.engine, GivenCell(o, perm.preset, q, c).value, ctx.entry.columns[c])) &&
    !FailsCheck(Some(perm.check), ctx, q, row)
  }

  // ----- the grid -----

  lemma {:induction false} IndexOfNamed(columns: seq<(string, string)>, c: string, j: nat)
    requires j < |columns| && columns[j].0 == c
    ensures IndexOf(columns, c).Some?
  {
    IndexOfFinds(columns, c);
  }

  /** What the INSERT writes to a column of the table is what the row is given. */
  lemma {:induction false} WrittenIsGiven(objects: seq<Value>, perm: InsertPermission, ctx: TableCtx, q: Scope, i: nat, c: string)
    requires InsertGrid(objects, perm, ctx.entry, q.s).Ok? && i < |objects| && c in ctx.entry.columns
    ensures
      var g := InsertGrid(objects, perm, ctx.entry, q.s).value;
      var given := GivenCell(objects[i], perm.preset, q, c);
      |g.rows| == |objects| && |g.rows[i]| == |g.columns| &&
      (given.Some? ==> Written(q.db.engine, g.columns, g.rows[i], c) == Some(TypedLiteral(q.db.engine, given.value, ctx.entry.columns[c])))
  {
    var g := InsertGrid(objects, perm, ctx.entry, q.s).value;
    var presets := Presets(perm.preset, ctx.entry, q.s).value;
    var given := GivenCell(objects[i], perm.preset, q, c);
    InsertGridShape(objects, perm, ctx.entry, q.s);
    PresetFound(perm.preset, ctx.entry, q, c);
    assert CellOf(objects[i], presets, c) == given;
    if given.Some? {
      CellGiven(objects[i], presets, c);
      GivenHasColumn(objects, perm, ctx, q, i, c);
      IndexOfFinds(g.columns, c);
      LiteralSame(q.db.engine, given.value, ctx.entry.columns[c]);
    }
  }

  lemma {:induction false} GivenHasColumn(objects: seq<Value>, perm: InsertPermission, ctx: TableCtx, q: Scope, i: nat, c: string)
    requires InsertGrid(objects, perm, ctx.entry, q.s).Ok? && i < |objects| && c in ctx.entry.columns
    requires GivenCell(objects[i], perm.preset, q, c).Some?
    ensures IndexOf(InsertGrid(objects, perm, ctx.entry, q.s).value.columns, c).Some?
  {
    var g := InsertGrid(objects, perm, ctx.entry, q.s).value;
    InsertGridShape(objects, perm, ctx.entry, q.s);
    LookupFinds(perm.preset, c);
    LookupFinds(FieldsOf(objects[i]), c);
    assert SomeHasKey(objects, c) || HasKey(perm.preset, c);
    var j :| 0 <= j < |g.columns| && g.columns[j].0 == c;
    IndexOfNamed(g.columns, c, j);
  }

  // ----- the stored rows -----

  lemma {:induction false} BuiltCell(names: seq<string>, columns: seq<(string, string)>, cells: seq<Option<Value>>, t: Table, draws: nat,
    eng: Engine, rules: Rules, c: string)
    requires |cells| == |columns| && c in names && Written(eng, columns, cells, c).Some?
    ensures Get(BuildRow(names, columns, cells, t, draws, eng, rules).0, c) == Written(eng, columns, cells, c).value
    decreases |names|
  {
    var n := |names| - 1;
    assert names == names[..n] + [names[n]];
    if names[n] != c {
      BuiltCell(names[..n], columns, cells, t, draws, eng, rules, c);
    }
  }

  lemma {:induction false} StoredLast(w: World, t: Table, columns: seq<(string, string)>, rows: seq<seq<Option<Value>>>, rules: Rules)
    requires forall k :: 0 <= k < |rows| ==> |rows[k]| == |columns|
    requires StoreRows(w, t, columns, rows, rules).Ok? && rows != []
    ensures
      var n := |rows| - 1;
      var before := StoreRows(w, t, columns, rows[..n], rules);
      before.Ok? && StoreRows(w, t, columns, rows, rules).value.touched ==
      before.value.touched +
      [BuildRow(rules.columns(t), columns, rows[n], t, before.value.world.draws, before.value.world.db.engine, rules).0]
  {
  }

  /** Every stored row was built from its own cells. */
  lemma {:induction false} StoredRow(w: World, t: Table, columns: seq<(string, string)>, rows: seq<seq<Option<Value>>>, rules: Rules, i: nat)
    returns (draws: nat)
    requires forall k :: 0 <= k < |rows| ==> |rows[k]| == |columns|
    requires StoreRows(w, t, columns, rows, rules).Ok? && i < |rows|
    ensures
      var e := StoreRows(w, t, columns, rows, rules).value;
      |e.touched| == |rows| && e.touched[i] == BuildRow(rules.columns(t), columns, rows[i], t, draws, w.db.engine, rules).0
    decreases |rows|
  {
    var n := |rows| - 1;
    StoredLast(w, t, columns, rows, rules);
    StoreRowsAppends(w, t, columns, rows[..n], rules);
    if i < n {
      draws := StoredRow(w, t, columns, rows[..n], rules, i);
    } else {
      draws := StoreRows(w, t, columns, rows[..n], rules).value.world.draws;
    }
  }

  lemma {:induction false} StoredReads(objects: seq<Value>, perm: InsertPermission, ctx: TableCtx, q: Scope, i: nat, t: Table, draws: nat,
    rules: Rules)
    requires InsertGrid(objects, perm, ctx.entry, q.s).Ok? && i < |objects|
    ensures
      var g := InsertGrid(objects, perm, ctx.entry, q.s).value;
      var row := BuildRow(rules.columns(t), g.columns, g.rows[i], t, draws, q.db.engine, rules).0;
      forall c :: c in rules.columns(t) && c in ctx.entry.columns && GivenCell(objects[i], perm.preset, q, c).Some? ==>
        Get(row, c) == TypedLiteral(q.db.engine, GivenCell(objects[i], perm.preset, q, c).value, ctx.entry.columns[c])
  {
    var g := InsertGrid(objects, perm, ctx.entry, q.s).value;
    var row := BuildRow(rules.columns(t), g.columns, g.rows[i], t, draws, q.db.engine, rules).0;
    forall c | c in rules.columns(t) && c in ctx.entry.columns && GivenCell(objects[i], perm.preset, q, c).Some?
      ensures Get(row, c) == TypedLiteral(q.db.engine, GivenCell(objects[i], perm.preset, q, c).value, ctx.entry.columns[c])
    {
      WrittenIsGiven(objects, perm, ctx, q, i, c);
      BuiltCell(rules.columns(t), g.columns, g.rows[i], t, draws, q.db.engine, rules, c);
    }
  }
}
