/** Tables that can be written: column defaults draw from arbitrary state (a
    sequence advances only when it is used), constraints are an arbitrary
    predicate on the tables, and one INSERT stores its rows one after another. */
module Storage {
  import opened Values
  import opened Database

  /** `draws` is the state behind column defaults. */
  datatype World = World(db: Db, draws: nat)

  datatype Rules = Rules(
    columns: Table -> seq<string>,
    draw: (Table, string, nat) -> (Value, nat),
    valid: map<Table, seq<Row>> -> bool,
    plus: (Value, Value) -> Value)

  datatype DbError = SyntaxError | Rejected | CheckViolation | Aborted

  /** What a statement leaves behind and the rows it touched. */
  datatype Effect = Effect(world: World, touched: seq<Row>)

  function WithRows(w: World, t: Table, rows: seq<Row>): World {
    w.(db := w.db.(tables := w.db.tables[t := rows]))
  }

  function IndexOf(columns: seq<(string, string)>, c: string): Option<nat> {
    if columns == [] then None
    else if columns[0].0 == c then Some(0)
    else
      var rest := IndexOf(columns[1..], c);
      if rest.None? then None else Some(rest.value + 1)
  }

  lemma {:induction false} IndexOfFinds(columns: seq<(string, string)>, c: string)
    ensures IndexOf(columns, c).Some? ==> IndexOf(columns, c).value < |columns| && columns[IndexOf(columns, c).value].0 == c
    ensures IndexOf(columns, c).None? ==> forall j :: 0 <= j < |columns| ==> columns[j].0 != c
  {
    if columns != [] {
      IndexOfFinds(columns[1..], c);
      assert forall j :: 1 <= j < |columns| ==> columns[j] == columns[1..][j - 1];
    }
  }

  /** The value an INSERT row writes to a column; None is DEFAULT. */
  function Written(eng: Engine, columns: seq<(string, string)>, cells: seq<Option<Value>>, c: string): Option<Value>
    requires |cells| == |columns|
  {
    IndexOfFinds(columns, c);
    var j := IndexOf(columns, c);
    if j.None? || cells[j.value].None? then None
    else Some(LitValue(eng, cells[j.value].value, columns[j.value].1))
  }

  /** The stored row over the table's columns, and the default state after it. */
  function BuildRow(names: seq<string>, columns: seq<(string, string)>, cells: seq<Option<Value>>, t: Table, draws: nat,
    eng: Engine, rules: Rules): (Row, nat)
    requires |cells| == |columns|
    decreases |names|
  {
    if names == [] then (map[], draws)
    else
      var n := |names| - 1;
      var (row, d) := BuildRow(names[..n], columns, cells, t, draws, eng, rules);
      var w := Written(eng, columns, cells, names[n]);
      if w.Some? then (row[names[n] := w.value], d)
      else
        var (v, d2) := rules.draw(t, names[n], d);
        (row[names[n] := v], d2)
  }

  function StoreRow(w: World, t: Table, columns: seq<(string, string)>, cells: seq<Option<Value>>, rules: Rules):
    Result<(World, Row), DbError>
    requires |cells| == |columns|
  {
    var (row, d) := BuildRow(rules.columns(t), columns, cells, t, w.draws, w.db.engine, rules);
    var w2 := WithRows(w, t, Rows(w.db, t) + [row]).(draws := d);
    if rules.valid(w2.db.tables) then Ok((w2, row)) else Err(Rejected)
  }

  function StoreRows(w: World, t: Table, columns: seq<(string, string)>, rows: seq<seq<Option<Value>>>, rules: Rules):
    Result<Effect, DbError>
    requires forall i :: 0 <= i < |rows| ==> |rows[i]| == |columns|
    decreases |rows|
  {
    if rows == [] then Ok(Effect(w, []))
    else
      var n := |rows| - 1;
      var init := StoreRows(w, t, columns, rows[..n], rules);
      if init.Err? then init
      else
        var last := StoreRow(init.value.world, t, columns, rows[n], rules);
        if last.Err? then Err(last.error)
        else Ok(Effect(last.value.0, init.value.touched + [last.value.1]))
  }

  /** `INSERT INTO t (columns) VALUES rows`; an empty column list is not SQL. */
  function InsertInto(w: World, t: Table, columns: seq<(string, string)>, rows: seq<seq<Option<Value>>>, rules: Rules):
    Result<Effect, DbError>
    requires forall i :: 0 <= i < |rows| ==> |rows[i]| == |columns|
  {
    if columns == [] then Err(SyntaxError) else StoreRows(w, t, columns, rows, rules)
  }

  lemma StoreOne(w: World, t: Table, columns: seq<(string, string)>, cells: seq<Option<Value>>, rules: Rules)
    requires |cells| == |columns|
    ensures
      var one := StoreRow(w, t, columns, cells, rules);
      StoreRows(w, t, columns, [cells], rules) ==
      if one.Err? then Err(one.error) else Ok(Effect(one.value.0, [one.value.1]))
  {
    var rows := [cells];
    assert rows[..0] == [];
    assert StoreRows(w, t, columns, rows[..0], rules) == Ok(Effect(w, []));
    var one := StoreRow(w, t, columns, rows[0], rules);
    assert one.Ok? ==> [] + [one.value.1] == [one.value.1];
  }

  /** An INSERT only appends, and only to its own table. */
  lemma {:induction false} StoreRowsAppends(w: World, t: Table, columns: seq<(string, string)>, rows: seq<seq<Option<Value>>>,
    rules: Rules)
    requires forall i :: 0 <= i < |rows| ==> |rows[i]| == |columns|
    requires StoreRows(w, t, columns, rows, rules).Ok?
    ensures
      var e := StoreRows(w, t, columns, rows, rules).value;
      e.world.db.engine == w.db.engine && |e.touched| == |rows| &&
      Rows(e.world.db, t) == Rows(w.db, t) + e.touched &&
      forall u :: u != t ==> Rows(e.world.db, u) == Rows(w.db, u)
    decreases |rows|
  {
    if rows != [] {
      var n := |rows| - 1;
      StoreRowsAppends(w, t, columns, rows[..n], rules);
    }
  }

  /** Only what is written to each column matters, not how columns are listed. */
  lemma {:induction false} BuildRowDependsOnCells(names: seq<string>, cols1: seq<(string, string)>, cells1: seq<Option<Value>>,
    cols2: seq<(string, string)>, cells2: seq<Option<Value>>, t: Table, draws: nat, eng: Engine, rules: Rules)
    requires |cells1| == |cols1| && |cells2| == |cols2|
    requires forall c :: Written(eng, cols1, cells1, c) == Written(eng, cols2, cells2, c)
    ensures BuildRow(names, cols1, cells1, t, draws, eng, rules) == BuildRow(names, cols2, cells2, t, draws, eng, rules)
    decreases |names|
  {
    if names != [] {
      BuildRowDependsOnCells(names[..|names| - 1], cols1, cells1, cols2, cells2, t, draws, eng, rules);
    }
  }
}
