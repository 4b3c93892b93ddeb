/** Planning an insert (crates/schema plan_insert): the column union of ragged
    objects, permission presets and the row grid; and the law that one batch
    stores what inserting the objects one at a time would store. */
module InsertPlan {
  import opened Values
  import opened Database
  import opened Planner
  import opened JsonAccess
  import opened Storage

  datatype InsertPermission = InsertPermission(columns: Columns, preset: seq<(string, Value)>, check: Value)

  /** Columns with their types, and one cell per column for each row. */
  datatype Grid = Grid(columns: seq<(string, string)>, rows: seq<seq<Option<Value>>>)

  predicate KeyAllowed(key: string, columns: Columns, entry: TableEntry) {
    key in entry.columns && (columns.AllColumns? || key in columns.names)
  }

  predicate ObjectAllowed(o: Value, columns: Columns, entry: TableEntry) {
    o.Obj? && forall i :: 0 <= i < |o.fields| ==> KeyAllowed(o.fields[i].0, columns, entry)
  }

  // ----- the column union -----

  function AddColumn(cs: seq<string>, c: string): seq<string> {
    if c in cs then cs else cs + [c]
  }

  function AddKeys(cs: seq<string>, fields: seq<(string, Value)>): seq<string> {
    if fields == [] then cs else AddColumn(AddKeys(cs, fields[..|fields| - 1]), fields[|fields| - 1].0)
  }

  function FieldsOf(o: Value): seq<(string, Value)> {
    if o.Obj? then o.fields else []
  }

  function ObjectColumns(objects: seq<Value>): seq<string> {
    if objects == [] then [] else AddKeys(ObjectColumns(objects[..|objects| - 1]), FieldsOf(objects[|objects| - 1]))
  }

  predicate Distinct(cs: seq<string>) {
    forall i, j :: 0 <= i < j < |cs| ==> cs[i] != cs[j]
  }

  lemma {:induction false} AddKeysIsUnion(cs: seq<string>, fields: seq<(string, Value)>)
    requires Distinct(cs)
    ensures Distinct(AddKeys(cs, fields))
    ensures forall c :: c in AddKeys(cs, fields) <==> c in cs || HasKey(fields, c)
  {
    if fields != [] {
      var n := |fields| - 1;
      AddKeysIsUnion(cs, fields[..n]);
      assert forall c :: HasKey(fields, c) <==> HasKey(fields[..n], c) || fields[n].0 == c;
    }
  }

  predicate SomeHasKey(objects: seq<Value>, c: string) {
    exists i :: 0 <= i < |objects| && HasKey(FieldsOf(objects[i]), c)
  }

  lemma {:induction false} ObjectColumnsIsUnion(objects: seq<Value>)
    ensures Distinct(ObjectColumns(objects))
    ensures forall c :: c in ObjectColumns(objects) <==> SomeHasKey(objects, c)
  {
    if objects != [] {
      var n := |objects| - 1;
      ObjectColumnsIsUnion(objects[..n]);
      AddKeysIsUnion(ObjectColumns(objects[..n]), FieldsOf(objects[n]));
      forall c ensures SomeHasKey(objects, c) <==> SomeHasKey(objects[..n], c) || HasKey(FieldsOf(objects[n]), c) {
        assert SomeHasKey(objects[..n], c) ==> exists i :: 0 <= i < n && HasKey(FieldsOf(objects[..n][i]), c);
        assert forall i :: 0 <= i < n ==> objects[..n][i] == objects[i];
      }
    }
  }

  // ----- presets -----

  /** Presets on known columns, with session variables resolved. */
  function Presets(preset: seq<(string, Value)>, entry: TableEntry, s: Session): Result<seq<(string, Value)>, PlanError> {
    if preset == [] then Ok([])
    else
      var n := |preset| - 1;
      var init := Presets(preset[..n], entry, s);
      if init.Err? || preset[n].0 !in entry.columns then init
      else
        var v := ResolveSession(preset[n].1, s, true);
        if v.Err? then Err(v.error) else Ok(init.value + [(preset[n].0, v.value)])
  }

  lemma {:induction false} PresetsKnown(preset: seq<(string, Value)>, entry: TableEntry, s: Session)
    ensures Presets(preset, entry, s).Ok? ==>
      forall c :: HasKey(Presets(preset, entry, s).value, c) <==> HasKey(preset, c) && c in entry.columns
    ensures Presets(preset, entry, s).Err? ==> Presets(preset, entry, s).error == MissingSessionVariable
    ensures Presets(preset, entry, s).Err? <==>
      exists i :: 0 <= i < |preset| && preset[i].0 in entry.columns && ResolveSession(preset[i].1, s, true).Err?
  {
    if preset != [] {
      var n := |preset| - 1;
      var init := preset[..n];
      PresetsKnown(init, entry, s);
      assert forall i :: 0 <= i < n ==> init[i] == preset[i];
      assert forall c :: HasKey(preset, c) <==> HasKey(init, c) || preset[n].0 == c;
      var r := Presets(preset, entry, s);
      if r.Ok? && preset[n].0 in entry.columns {
        var before := Presets(init, entry, s).value;
        assert r.value[..|before|] == before && r.value[|before|].0 == preset[n].0;
        assert forall c :: HasKey(r.value, c) <==> HasKey(before, c) || preset[n].0 == c;
      }
    }
  }

  // ----- cells -----

  /** A preset overrides the object's own value; otherwise DEFAULT. */
  function CellOf(o: Value, presets: seq<(string, Value)>, c: string): Option<Value> {
    var p := Lookup(presets, c);
    if p.Some? then p else Lookup(FieldsOf(o), c)
  }

  lemma CellGiven(o: Value, presets: seq<(string, Value)>, c: string)
    ensures CellOf(o, presets, c).Some? <==> HasKey(presets, c) || HasKey(FieldsOf(o), c)
  {
    LookupFinds(presets, c);
    LookupFinds(FieldsOf(o), c);
  }

  function RowCells(names: seq<string>, o: Value, presets: seq<(string, Value)>): (cells: seq<Option<Value>>)
    ensures |cells| == |names|
    ensures forall j :: 0 <= j < |names| ==> cells[j] == CellOf(o, presets, names[j])
  {
    seq(|names|, j requires 0 <= j < |names| => CellOf(o, presets, names[j]))
  }

  function GridRows(names: seq<string>, objects: seq<Value>, presets: seq<(string, Value)>): (rows: seq<seq<Option<Value>>>)
    ensures |rows| == |objects|
    ensures forall i :: 0 <= i < |objects| ==> rows[i] == RowCells(names, objects[i], presets)
  {
    seq(|objects|, i requires 0 <= i < |objects| => RowCells(names, objects[i], presets))
  }

  function TypeOf(entry: TableEntry, c: string): string {
    if c in entry.columns then entry.columns[c] else ""
  }

  function Typed(names: seq<string>, entry: TableEntry): (columns: seq<(string, string)>)
    ensures |columns| == |names|
    ensures forall j :: 0 <= j < |names| ==> columns[j] == (names[j], TypeOf(entry, names[j]))
  {
    seq(|names|, j requires 0 <= j < |names| => (names[j], TypeOf(entry, names[j])))
  }

  function UnionColumns(objects: seq<Value>, presets: seq<(string, Value)>): seq<string> {
    AddKeys(ObjectColumns(objects), presets)
  }

  function GridOf(objects: seq<Value>, presets: seq<(string, Value)>, entry: TableEntry): (g: Grid)
    ensures |g.rows| == |objects| && forall i :: 0 <= i < |g.rows| ==> |g.rows[i]| == |g.columns|
  {
    var names := UnionColumns(objects, presets);
    Grid(Typed(names, entry), GridRows(names, objects, presets))
  }

  function InsertGrid(objects: seq<Value>, perm: InsertPermission, entry: TableEntry, s: Session): Result<Grid, PlanError> {
    if objects == [] || !AllAllowed(objects, perm.columns, entry) then Err(Invalid)
    else
      var presets := Presets(perm.preset, entry, s);
      if presets.Err? then Err(presets.error) else Ok(GridOf(objects, presets.value, entry))
  }

  // ----- the planner's loops -----

  predicate AllAllowed(objects: seq<Value>, columns: Columns, entry: TableEntry) {
    forall i :: 0 <= i < |objects| ==> ObjectAllowed(objects[i], columns, entry)
  }

  /** The keys of one object, added to the union so far. */
  method AddObjectKeys(before: seq<string>, fields: seq<(string, Value)>, columns: Columns, entry: TableEntry)
    returns (r: Result<seq<string>, PlanError>)
    ensures r == if forall k :: 0 <= k < |fields| ==> KeyAllowed(fields[k].0, columns, entry)
                 then Ok(AddKeys(before, fields)) else Err(Invalid)
  {
    var names := before;
    for j := 0 to |fields|
      invariant names == AddKeys(before, fields[..j])
      invariant forall k :: 0 <= k < j ==> KeyAllowed(fields[k].0, columns, entry)
    {
      var key := fields[j].0;
      assert fields[..j + 1][..j] == fields[..j];
      if !KeyAllowed(key, columns, entry) {
        return Err(Invalid);
      }
      if key !in names {
        names := names + [key];
      }
    }
    assert fields[..|fields|] == fields;
    r := Ok(names);
  }

  method ColumnUnion(objects: seq<Value>, columns: Columns, entry: TableEntry) returns (r: Result<seq<string>, PlanError>)
    ensures r == if AllAllowed(objects, columns, entry) then Ok(ObjectColumns(objects)) else Err(Invalid)
  {
    var names: seq<string> := [];
    for i := 0 to |objects|
      invariant names == ObjectColumns(objects[..i])
      invariant forall k :: 0 <= k < i ==> ObjectAllowed(objects[k], columns, entry)
    {
      assert objects[..i + 1][..i] == objects[..i];
      if !objects[i].Obj? {
        assert !ObjectAllowed(objects[i], columns, entry);
        return Err(Invalid);
      }
      var added := AddObjectKeys(names, objects[i].fields, columns, entry);
      if added.Err? {
        assert !ObjectAllowed(objects[i], columns, entry);
        return added;
      }
      names := added.value;
    }
    assert objects[..|objects|] == objects;
    r := Ok(names);
  }

  function Extended(union: seq<string>, presets: Result<seq<(string, Value)>, PlanError>):
    Result<(seq<string>, seq<(string, Value)>), PlanError>
  {
    if presets.Err? then Err(presets.error) else Ok((AddKeys(union, presets.value), presets.value))
  }

  /** Resolved presets, and the union extended by their columns. */
  method AddPresets(union: seq<string>, preset: seq<(string, Value)>, entry: TableEntry, s: Session)
    returns (r: Result<(seq<string>, seq<(string, Value)>), PlanError>)
    ensures r == Extended(union, Presets(preset, entry, s))
  {
    var names: seq<string>, presets: seq<(string, Value)> := union, [];
    for i := 0 to |preset|
      invariant Presets(preset[..i], entry, s) == Ok(presets)
      invariant names == AddKeys(union, presets)
    {
      var (c, value) := preset[i];
      assert preset[..i + 1][..i] == preset[..i];
      if c !in entry.columns {
        continue;
      }
      var v := ResolveSession(value, s, true);
      if v.Err? {
        PresetsKnown(preset, entry, s);
        return Err(MissingSessionVariable);
      }
      if c !in names {
        names := names + [c];
      }
      assert (presets + [(c, v.value)])[..|presets|] == presets;
      presets := presets + [(c, v.value)];
    }
    assert preset[..|preset|] == preset;
    r := Ok((names, presets));
  }

  method PlanInsert(objects: seq<Value>, perm: InsertPermission, entry: TableEntry, s: Session)
    returns (r: Result<Grid, PlanError>)
    ensures r == InsertGrid(objects, perm, entry, s)
  {
    if objects == [] {
      return Err(Invalid);
    }
    var union := ColumnUnion(objects, perm.columns, entry);
    if union.Err? {
      return Err(union.error);
    }
    var names := AddPresets(union.value, perm.preset, entry, s);
    if names.Err? {
      return Err(names.error);
    }
    r := Ok(Grid(Typed(names.value.0, entry), GridRows(names.value.0, objects, names.value.1)));
  }

  /** What the grid promises. */
  lemma InsertGridShape(objects: seq<Value>, perm: InsertPermission, entry: TableEntry, s: Session)
    requires InsertGrid(objects, perm, entry, s).Ok?
    ensures
      var g := InsertGrid(objects, perm, entry, s).value;
      var presets := Presets(perm.preset, entry, s).value;
      // no column twice
      (forall i, j :: 0 <= i < j < |g.columns| ==> g.columns[i].0 != g.columns[j].0) &&
      // every column is granted by the mask or preset, and has its catalog type
      (forall j :: 0 <= j < |g.columns| ==>
        var (c, ty) := g.columns[j];
        c in entry.columns && ty == entry.columns[c] &&
        (perm.columns.AllColumns? || c in perm.columns.names || HasKey(perm.preset, c))) &&
      // users write only granted columns
      (forall c :: SomeHasKey(objects, c) ==> perm.columns.AllColumns? || c in perm.columns.names) &&
      // every key and every known preset has a column
      (forall c :: SomeHasKey(objects, c) || (HasKey(perm.preset, c) && c in entry.columns) <==>
        exists j :: 0 <= j < |g.columns| && g.columns[j].0 == c) &&
      // one row per object; preset, else own value, else DEFAULT
      |g.rows| == |objects| &&
      (forall i, j :: 0 <= i < |g.rows| && 0 <= j < |g.columns| ==>
        |g.rows[i]| == |g.columns| && g.rows[i][j] == CellOf(objects[i], presets, g.columns[j].0))
  {
    var g := InsertGrid(objects, perm, entry, s).value;
    var presets := Presets(perm.preset, entry, s).value;
    var names := UnionColumns(objects, presets);
    UnionCovers(objects, presets);
    PresetsKnown(perm.preset, entry, s);
    forall c | SomeHasKey(objects, c) ensures KeyAllowed(c, perm.columns, entry) {
      var i :| 0 <= i < |objects| && HasKey(FieldsOf(objects[i]), c);
      assert ObjectAllowed(objects[i], perm.columns, entry);
    }
    forall j | 0 <= j < |names| ensures names[j] in entry.columns && g.columns[j] == (names[j], entry.columns[names[j]]) {
      assert names[j] in names;
    }
    forall c | c in names ensures exists j :: 0 <= j < |g.columns| && g.columns[j].0 == c {
      var j :| 0 <= j < |names| && names[j] == c;
      assert g.columns[j].0 == c;
    }
  }

  lemma UnionCovers(objects: seq<Value>, presets: seq<(string, Value)>)
    ensures Distinct(UnionColumns(objects, presets))
    ensures forall c :: c in UnionColumns(objects, presets) <==> SomeHasKey(objects, c) || HasKey(presets, c)
  {
    ObjectColumnsIsUnion(objects);
    AddKeysIsUnion(ObjectColumns(objects), presets);
  }

  // ----- batch against one by one -----

  /** Inserting each object with a statement of its own. */
  function OneByOne(w: World, t: Table, objects: seq<Value>, presets: seq<(string, Value)>, entry: TableEntry, rules: Rules):
    Result<Effect, DbError>
  {
    if objects == [] then Ok(Effect(w, []))
    else
      var n := |objects| - 1;
      var init := OneByOne(w, t, objects[..n], presets, entry, rules);
      if init.Err? then init
      else
        var g := GridOf([objects[n]], presets, entry);
        var last := InsertInto(init.value.world, t, g.columns, g.rows, rules);
        if last.Err? then last
        else Ok(Effect(last.value.world, init.value.touched + last.value.touched))
  }

  /** Both grids write the same to every column. */
  lemma WrittenIsCell(eng: Engine, names: seq<string>, o: Value, presets: seq<(string, Value)>, entry: TableEntry, c: string)
    requires HasKey(presets, c) || HasKey(FieldsOf(o), c) ==> c in names
    ensures
      Written(eng, Typed(names, entry), RowCells(names, o, presets), c) ==
      var cell := CellOf(o, presets, c);
      if cell.None? then None else Some(LitValue(eng, cell.value, TypeOf(entry, c)))
  {
    var columns := Typed(names, entry);
    IndexOfFinds(columns, c);
    CellGiven(o, presets, c);
    assert forall j :: 0 <= j < |names| ==> columns[j].0 == names[j];
  }

  lemma RowStoredAlike(w: World, t: Table, objects: seq<Value>, o: Value, presets: seq<(string, Value)>, entry: TableEntry,
    rules: Rules)
    requires o in objects
    ensures
      var all, own := UnionColumns(objects, presets), UnionColumns([o], presets);
      StoreRow(w, t, Typed(all, entry), RowCells(all, o, presets), rules) ==
      StoreRow(w, t, Typed(own, entry), RowCells(own, o, presets), rules)
  {
    var all, own := UnionColumns(objects, presets), UnionColumns([o], presets);
    var eng := w.db.engine;
    UnionCovers(objects, presets);
    UnionCovers([o], presets);
    var i :| 0 <= i < |objects| && objects[i] == o;
    forall c ensures Written(eng, Typed(all, entry), RowCells(all, o, presets), c) ==
                     Written(eng, Typed(own, entry), RowCells(own, o, presets), c)
    {
      assert HasKey(FieldsOf(o), c) ==> HasKey(FieldsOf(objects[i]), c) && HasKey(FieldsOf([o][0]), c);
      assert HasKey(FieldsOf(o), c) ==> SomeHasKey(objects, c) && SomeHasKey([o], c);
      WrittenIsCell(eng, all, o, presets, entry, c);
      WrittenIsCell(eng, own, o, presets, entry, c);
    }
    BuildRowDependsOnCells(rules.columns(t), Typed(all, entry), RowCells(all, o, presets),
      Typed(own, entry), RowCells(own, o, presets), t, w.draws, eng, rules);
  }

  /** A single-row INSERT is one stored row, unless its column list is empty. */
  lemma SingleInsert(w: World, t: Table, o: Value, presets: seq<(string, Value)>, entry: TableEntry, rules: Rules)
    ensures
      var own := UnionColumns([o], presets);
      var g := GridOf([o], presets, entry);
      var one := StoreRow(w, t, Typed(own, entry), RowCells(own, o, presets), rules);
      InsertInto(w, t, g.columns, g.rows, rules) ==
        if own == [] then Err(SyntaxError)
        else if one.Err? then Err(one.error)
        else Ok(Effect(one.value.0, [one.value.1]))
  {
    var own := UnionColumns([o], presets);
    assert GridOf([o], presets, entry).rows == [RowCells(own, o, presets)];
    StoreOne(w, t, Typed(own, entry), RowCells(own, o, presets), rules);
  }

  predicate HasColumns(o: Value, presets: seq<(string, Value)>) {
    UnionColumns([o], presets) != []
  }

  ghost predicate Alike(batch: Result<Effect, DbError>, single: Result<Effect, DbError>, named: bool) {
    (named ==> single == batch) && (!named || batch.Err? ==> single.Err?)
  }

  /** One more row of the batch against one more statement. */
  lemma BatchStep(w: World, t: Table, objects: seq<Value>, k: nat, presets: seq<(string, Value)>, entry: TableEntry, rules: Rules,
    all: seq<string>, g: Grid, named: bool)
    requires k < |objects| && all == UnionColumns(objects, presets) && g == GridOf(objects, presets, entry)
    requires Alike(StoreRows(w, t, g.columns, g.rows[..k], rules), OneByOne(w, t, objects[..k], presets, entry, rules), named)
    ensures Alike(StoreRows(w, t, g.columns, g.rows[..k + 1], rules), OneByOne(w, t, objects[..k + 1], presets, entry, rules),
              named && HasColumns(objects[k], presets))
  {
    assert g.rows[..k + 1][..k] == g.rows[..k] && objects[..k + 1][..k] == objects[..k];
    assert g.rows[k] == RowCells(all, objects[k], presets) && g.columns == Typed(all, entry);
    var single := OneByOne(w, t, objects[..k], presets, entry, rules);
    if single.Ok? {
      RowStoredAlike(single.value.world, t, objects, objects[k], presets, entry, rules);
      SingleInsert(single.value.world, t, objects[k], presets, entry, rules);
    }
  }

  predicate AllHaveColumns(objects: seq<Value>, presets: seq<(string, Value)>) {
    forall i :: 0 <= i < |objects| ==> HasColumns(objects[i], presets)
  }

  lemma AllHaveColumnsSnoc(objects: seq<Value>, n: nat, presets: seq<(string, Value)>)
    requires 0 < n <= |objects|
    ensures AllHaveColumns(objects[..n], presets) <==>
            AllHaveColumns(objects[..n - 1], presets) && HasColumns(objects[n - 1], presets)
  {
    assert forall i :: 0 <= i < n - 1 ==> objects[..n][i] == objects[..n - 1][i];
    assert objects[..n][n - 1] == objects[n - 1];
  }

  /** Storing the first `n` rows of the batch against the first `n` statements. */
  lemma {:induction false} BatchPrefix(w: World, t: Table, objects: seq<Value>, n: nat, presets: seq<(string, Value)>,
    entry: TableEntry, rules: Rules, g: Grid)
    requires n <= |objects| && g == GridOf(objects, presets, entry)
    ensures Alike(StoreRows(w, t, g.columns, g.rows[..n], rules), OneByOne(w, t, objects[..n], presets, entry, rules),
              AllHaveColumns(objects[..n], presets))
  {
    if n > 0 {
      BatchPrefix(w, t, objects, n - 1, presets, entry, rules, g);
      BatchStep(w, t, objects, n - 1, presets, entry, rules, UnionColumns(objects, presets), g,
        AllHaveColumns(objects[..n - 1], presets));
      AllHaveColumnsSnoc(objects, n, presets);
    }
  }

  lemma OwnColumnsEmpty(o: Value, presets: seq<(string, Value)>)
    ensures HasColumns(o, presets) <==> FieldsOf(o) != [] || presets != []
  {
    UnionCovers([o], presets);
    var own := UnionColumns([o], presets);
    if FieldsOf(o) != [] {
      assert HasKey(FieldsOf([o][0]), FieldsOf(o)[0].0);
      assert SomeHasKey([o], FieldsOf(o)[0].0);
    }
    if presets != [] {
      assert HasKey(presets, presets[0].0);
    }
    if own != [] {
      assert own[0] in own;
    }
  }

  /** Main result: one batch stores exactly what one-by-one inserts store, for
      any ragged objects, presets, defaults and constraints. The exception is
      exact: with no presets, an empty object inserted alone has no columns to
      name and its statement is not SQL, while in a batch beside a non-empty
      object it becomes a row of defaults. */
  lemma BatchInsertIsOneByOne(w: World, t: Table, objects: seq<Value>, perm: InsertPermission, entry: TableEntry, s: Session,
    rules: Rules)
    requires InsertGrid(objects, perm, entry, s).Ok?
    ensures
      var g := InsertGrid(objects, perm, entry, s).value;
      var presets := Presets(perm.preset, entry, s).value;
      var batch := InsertInto(w, t, g.columns, g.rows, rules);
      var single := OneByOne(w, t, objects, presets, entry, rules);
      var named := presets != [] || forall i :: 0 <= i < |objects| ==> FieldsOf(objects[i]) != [];
      (named ==> single == batch) && (batch.Ok? ==> (single == batch <==> named)) && (batch.Err? ==> single.Err?)
  {
    var g := InsertGrid(objects, perm, entry, s).value;
    var presets := Presets(perm.preset, entry, s).value;
    BatchPrefix(w, t, objects, |objects|, presets, entry, rules, g);
    assert objects[..|objects|] == objects && g.rows[..|objects|] == g.rows;
    forall i | 0 <= i < |objects| ensures HasColumns(objects[i], presets) <==> FieldsOf(objects[i]) != [] || presets != [] {
      OwnColumnsEmpty(objects[i], presets);
    }
    UnionCovers(objects, presets);
    var all := UnionColumns(objects, presets);
    if presets != [] {
      assert HasKey(presets, presets[0].0) && presets[0].0 in all;
    }
    if FieldsOf(objects[0]) != [] {
      var c := FieldsOf(objects[0])[0].0;
      assert HasKey(FieldsOf(objects[0]), c) && SomeHasKey(objects, c);
      assert c in all;
    }
    if g.columns == [] {
      assert presets == [] && FieldsOf(objects[0]) == [];
      assert !HasColumns(objects[0], presets);
    }
  }
}
