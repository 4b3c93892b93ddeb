/** Planning updates and deletes (crates/schema plan_mutation.rs): assignments
    under the column mask, presets, and the target rows as primary key AND user
    where AND the role's row filter. */
module MutationPlan {
  import opened Values
  import opened Database
  import opened Ir
  import opened Planner
  import opened Meaning
  import opened Conjunctions
  import opened MutationSql
  import InsertPlan
  import SelectPlan

  datatype UpdatePermission = UpdatePermission(columns: Columns, filter: Value, check: Option<Value>, preset: seq<(string, Value)>)

  datatype UpdateArgs = UpdateArgs(sets: seq<SetOp>, keys: seq<BoolExp>, where: Option<BoolExp>)

  datatype UpdatePlan = UpdatePlan(sets: seq<SetOp>, target: Option<BoolExp>, check: Option<BoolExp>)

  // ----- arguments -----

  function SetOf(inc: bool, column: string, pgType: string, v: Value): SetOp {
    if inc then Inc(column, pgType, v) else Set(column, pgType, v)
  }

  /** `_set` and `_inc` objects, key by key under the column mask. */
  function Assignments(fields: seq<(string, Value)>, inc: bool, columns: Columns, entry: TableEntry): Result<seq<SetOp>, PlanError> {
    if fields == [] then Ok([])
    else
      var n := |fields| - 1;
      var init := Assignments(fields[..n], inc, columns, entry);
      if init.Err? then init
      else if !InsertPlan.KeyAllowed(fields[n].0, columns, entry) then Err(Invalid)
      else Ok(init.value + [SetOf(inc, fields[n].0, entry.columns[fields[n].0], fields[n].1)])
  }

  function KeyEquality(column: string, v: Value, entry: TableEntry): BoolExp
    requires column in entry.columns
  {
    Compare(column, entry.columns[column], Bin(Eq, v))
  }

  /** `pk_columns`: equalities on any catalog columns. */
  function KeyEqualities(fields: seq<(string, Value)>, entry: TableEntry): Result<seq<BoolExp>, PlanError> {
    if fields == [] then Ok([])
    else
      var n := |fields| - 1;
      var init := KeyEqualities(fields[..n], entry);
      if init.Err? then init
      else if fields[n].0 !in entry.columns then Err(Invalid)
      else Ok(init.value + [KeyEquality(fields[n].0, fields[n].1, entry)])
  }

  function UpdateArg(acc: UpdateArgs, name: string, v: Value, byPk: bool, columns: Columns, ctx: TableCtx, md: Metadata, s: Session):
    Result<UpdateArgs, PlanError>
  {
    if name == "_set" || name == "_inc" then
      if !v.Obj? then Err(Invalid)
      else
        var sets := Assignments(v.fields, name == "_inc", columns, ctx.entry);
        if sets.Err? then Err(sets.error) else Ok(acc.(sets := acc.sets + sets.value))
    else if name == "where" && !byPk then
      var where := ParseBool(v, ctx, md, s, false);
      if where.Err? then Err(where.error) else Ok(acc.(where := Some(where.value)))
    else if name == "pk_columns" && byPk then
      if !v.Obj? then Err(Invalid)
      else
        var keys := KeyEqualities(v.fields, ctx.entry);
        if keys.Err? then Err(keys.error) else Ok(acc.(keys := acc.keys + keys.value))
    else Err(Invalid)
  }

  function ReadUpdateArgs(args: seq<(string, Value)>, byPk: bool, columns: Columns, ctx: TableCtx, md: Metadata, s: Session):
    Result<UpdateArgs, PlanError>
  {
    if args == [] then Ok(UpdateArgs([], [], None))
    else
      var n := |args| - 1;
      var init := ReadUpdateArgs(args[..n], byPk, columns, ctx, md, s);
      if init.Err? then init else UpdateArg(init.value, args[n].0, args[n].1, byPk, columns, ctx, md, s)
  }

  // ----- merging -----

  function RowFilter(filter: Value, ctx: TableCtx, md: Metadata, s: Session): Result<Option<BoolExp>, PlanError> {
    if filter.Null? || filter == Obj([]) then Ok(None)
    else
      var f := ParseBool(filter, ctx.(perms := []), md, s, true);
      if f.Err? then Err(f.error) else Ok(Some(f.value))
  }

  /** `parse_check_exp`; an absent check is no check. */
  function CheckExp(check: Option<Value>, ctx: TableCtx, md: Metadata, s: Session): Result<Option<BoolExp>, PlanError> {
    if check.None? then Ok(None) else RowFilter(check.value, ctx, md, s)
  }

  /** No predicate, the only predicate, or their conjunction. */
  function MergeTarget(keys: seq<BoolExp>, where: Option<BoolExp>, filter: Option<BoolExp>): Option<BoolExp> {
    SelectPlan.Merge(keys + SelectPlan.AsList(where) + SelectPlan.AsList(filter))
  }

  function PresetSets(presets: seq<(string, Value)>, entry: TableEntry): (sets: seq<SetOp>)
    ensures |sets| == |presets|
    ensures forall i :: 0 <= i < |sets| ==> sets[i] == Set(presets[i].0, InsertPlan.TypeOf(entry, presets[i].0), presets[i].1)
  {
    seq(|presets|, i requires 0 <= i < |presets| => Set(presets[i].0, InsertPlan.TypeOf(entry, presets[i].0), presets[i].1))
  }

  /** plan_update after its argument loop. */
  function FinishUpdate(a: UpdateArgs, byPk: bool, perm: UpdatePermission, ctx: TableCtx, md: Metadata, s: Session):
    Result<UpdatePlan, PlanError>
  {
    if (!byPk && a.where.None?) || (byPk && a.keys == []) then Err(Invalid)
    else
      var presets := InsertPlan.Presets(perm.preset, ctx.entry, s);
      if presets.Err? then Err(presets.error)
      else
        var sets := a.sets + PresetSets(presets.value, ctx.entry);
        if sets == [] then Err(Invalid)
        else
          var filter := RowFilter(perm.filter, ctx, md, s);
          if filter.Err? then Err(filter.error)
          else
            var check := CheckExp(perm.check, ctx, md, s);
            if check.Err? then Err(check.error)
            else Ok(UpdatePlan(sets, MergeTarget(a.keys, a.where, filter.value), check.value))
  }

  function UpdatePlanOf(args: seq<(string, Value)>, byPk: bool, perm: UpdatePermission, ctx: TableCtx, md: Metadata, s: Session):
    Result<UpdatePlan, PlanError>
  {
    var a := ReadUpdateArgs(args, byPk, perm.columns, ctx, md, s);
    if a.Err? then Err(a.error) else FinishUpdate(a.value, byPk, perm, ctx, md, s)
  }

  /** delete: `where`, or one argument per primary-key column. */
  function ReadDeleteArgs(args: seq<(string, Value)>, byPk: bool, ctx: TableCtx, md: Metadata, s: Session):
    Result<UpdateArgs, PlanError>
  {
    if args == [] then Ok(UpdateArgs([], [], None))
    else
      var n := |args| - 1;
      var init := ReadDeleteArgs(args[..n], byPk, ctx, md, s);
      if init.Err? then init else DeleteArg(init.value, args[n].0, args[n].1, byPk, ctx, md, s)
  }

  function DeleteArg(acc: UpdateArgs, name: string, v: Value, byPk: bool, ctx: TableCtx, md: Metadata, s: Session):
    Result<UpdateArgs, PlanError>
  {
    if byPk then
      if name !in ctx.entry.columns || name !in ctx.entry.primaryKey then Err(Invalid)
      else Ok(acc.(keys := acc.keys + [KeyEquality(name, v, ctx.entry)]))
    else if name == "where" then
      var where := ParseBool(v, ctx, md, s, false);
      if where.Err? then Err(where.error) else Ok(acc.(where := Some(where.value)))
    else Err(Invalid)
  }

  function DeletePlanOf(args: seq<(string, Value)>, byPk: bool, filter: Value, ctx: TableCtx, md: Metadata, s: Session):
    Result<Option<BoolExp>, PlanError>
  {
    var a := ReadDeleteArgs(args, byPk, ctx, md, s);
    if a.Err? then Err(a.error)
    else if !byPk && a.value.where.None? then Err(Invalid)
    else
      var f := RowFilter(filter, ctx, md, s);
      if f.Err? then Err(f.error) else Ok(MergeTarget(a.value.keys, a.value.where, f.value))
  }

  // ----- inserts -----

  /** The grid of an insert and its check. */
  datatype InsertRootPlan = InsertRootPlan(grid: InsertPlan.Grid, check: Option<BoolExp>)

  function InsertPlanOf(objects: seq<Value>, perm: InsertPlan.InsertPermission, ctx: TableCtx, md: Metadata, s: Session):
    Result<InsertRootPlan, PlanError>
  {
    var grid := InsertPlan.InsertGrid(objects, perm, ctx.entry, s);
    if grid.Err? then Err(grid.error)
    else
      var check := RowFilter(perm.check, ctx, md, s);
      if check.Err? then Err(check.error) else Ok(InsertRootPlan(grid.value, check.value))
  }

  // ----- the planner's loops -----

  function Appended(before: seq<SetOp>, sets: Result<seq<SetOp>, PlanError>): Result<seq<SetOp>, PlanError> {
    if sets.Err? then sets else Ok(before + sets.value)
  }

  method AddAssignments(before: seq<SetOp>, fields: seq<(string, Value)>, inc: bool, columns: Columns, entry: TableEntry)
    returns (r: Result<seq<SetOp>, PlanError>)
    ensures r == Appended(before, Assignments(fields, inc, columns, entry))
  {
    var sets := before;
    for i := 0 to |fields|
      invariant Assignments(fields[..i], inc, columns, entry).Ok?
      invariant sets == before + Assignments(fields[..i], inc, columns, entry).value
    {
      var (column, v) := fields[i];
      assert fields[..i + 1][..i] == fields[..i];
      if !InsertPlan.KeyAllowed(column, columns, entry) {
        AssignmentsFail(fields, i, inc, columns, entry);
        return Err(Invalid);
      }
      sets := sets + [SetOf(inc, column, entry.columns[column], v)];
    }
    assert fields[..|fields|] == fields;
    r := Ok(sets);
  }

  lemma {:induction false} AssignmentsFail(fields: seq<(string, Value)>, i: nat, inc: bool, columns: Columns, entry: TableEntry)
    requires i < |fields| && Assignments(fields[..i + 1], inc, columns, entry) == Err(Invalid)
    ensures Assignments(fields, inc, columns, entry) == Err(Invalid)
  {
    if i + 1 == |fields| {
      assert fields[..i + 1] == fields;
    } else {
      var n := |fields| - 1;
      assert fields[..n][..i + 1] == fields[..i + 1];
      AssignmentsFail(fields[..n], i, inc, columns, entry);
    }
  }

  method PlanUpdate(args: seq<(string, Value)>, byPk: bool, perm: UpdatePermission, ctx: TableCtx, md: Metadata, s: Session)
    returns (r: Result<UpdatePlan, PlanError>)
    ensures r == UpdatePlanOf(args, byPk, perm, ctx, md, s)
  {
    var sets: seq<SetOp>, keys: seq<BoolExp>, where: Option<BoolExp> := [], [], None;
    for i := 0 to |args|
      invariant ReadUpdateArgs(args[..i], byPk, perm.columns, ctx, md, s) == Ok(UpdateArgs(sets, keys, where))
    {
      var (name, v) := args[i];
      assert args[..i + 1][..i] == args[..i];
      ReadFails(args, i, byPk, perm.columns, ctx, md, s);
      if name == "_set" || name == "_inc" {
        if !v.Obj? {
          return Err(Invalid);
        }
        var added := AddAssignments(sets, v.fields, name == "_inc", perm.columns, ctx.entry);
        if added.Err? {
          return Err(added.error);
        }
        sets := added.value;
      } else if name == "where" && !byPk {
        var parsed := ParseBool(v, ctx, md, s, false);
        if parsed.Err? {
          return Err(parsed.error);
        }
        where := Some(parsed.value);
      } else if name == "pk_columns" && byPk {
        if !v.Obj? {
          return Err(Invalid);
        }
        var equalities := KeyEqualities(v.fields, ctx.entry);
        if equalities.Err? {
          return Err(equalities.error);
        }
        keys := keys + equalities.value;
      } else {
        return Err(Invalid);
      }
    }
    assert args[..|args|] == args;
    r := FinishUpdate(UpdateArgs(sets, keys, where), byPk, perm, ctx, md, s);
  }

  method PlanInsertRoot(objects: seq<Value>, perm: InsertPlan.InsertPermission, ctx: TableCtx, md: Metadata, s: Session)
    returns (r: Result<InsertRootPlan, PlanError>)
    ensures r == InsertPlanOf(objects, perm, ctx, md, s)
  {
    var grid := InsertPlan.PlanInsert(objects, perm, ctx.entry, s);
    if grid.Err? {
      return Err(grid.error);
    }
    var check := RowFilter(perm.check, ctx, md, s);
    r := if check.Err? then Err(check.error) else Ok(InsertRootPlan(grid.value, check.value));
  }

  /** The first failing argument decides. */
  lemma {:induction false} ReadFails(args: seq<(string, Value)>, i: nat, byPk: bool, columns: Columns, ctx: TableCtx, md: Metadata,
    s: Session)
    requires i < |args|
    ensures
      var upTo := ReadUpdateArgs(args[..i + 1], byPk, columns, ctx, md, s);
      upTo.Err? ==> ReadUpdateArgs(args, byPk, columns, ctx, md, s) == upTo
  {
    if i + 1 == |args| {
      assert args[..i + 1] == args;
    } else {
      var n := |args| - 1;
      assert args[..n][..i + 1] == args[..i + 1];
      ReadFails(args[..n], i, byPk, columns, ctx, md, s);
    }
  }

  method PlanDelete(args: seq<(string, Value)>, byPk: bool, filter: Value, ctx: TableCtx, md: Metadata, s: Session)
    returns (r: Result<Option<BoolExp>, PlanError>)
    ensures r == DeletePlanOf(args, byPk, filter, ctx, md, s)
  {
    var keys: seq<BoolExp>, where: Option<BoolExp> := [], None;
    for i := 0 to |args|
      invariant ReadDeleteArgs(args[..i], byPk, ctx, md, s) == Ok(UpdateArgs([], keys, where))
    {
      var (name, v) := args[i];
      assert args[..i + 1][..i] == args[..i];
      DeleteReadFails(args, i, byPk, ctx, md, s);
      if byPk {
        if name !in ctx.entry.columns || name !in ctx.entry.primaryKey {
          return Err(Invalid);
        }
        keys := keys + [KeyEquality(name, v, ctx.entry)];
      } else if name == "where" {
        var parsed := ParseBool(v, ctx, md, s, false);
        if parsed.Err? {
          return Err(parsed.error);
        }
        where := Some(parsed.value);
      } else {
        return Err(Invalid);
      }
    }
    assert args[..|args|] == args;
    if !byPk && where.None? {
      return Err(Invalid);
    }
    var f := RowFilter(filter, ctx, md, s);
    if f.Err? {
      return Err(f.error);
    }
    r := Ok(MergeTarget(keys, where, f.value));
  }

  lemma {:induction false} DeleteReadFails(args: seq<(string, Value)>, i: nat, byPk: bool, ctx: TableCtx, md: Metadata, s: Session)
    requires i < |args|
    ensures
      var upTo := ReadDeleteArgs(args[..i + 1], byPk, ctx, md, s);
      upTo.Err? ==> ReadDeleteArgs(args, byPk, ctx, md, s) == upTo
  {
    if i + 1 == |args| {
      assert args[..i + 1] == args;
    } else {
      var n := |args| - 1;
      assert args[..n][..i + 1] == args[..i + 1];
      DeleteReadFails(args[..n], i, byPk, ctx, md, s);
    }
  }

  // ----- which rows are reached -----

  /** The merged predicate is TRUE exactly where all its parts are. */
  lemma TargetMeaning(keys: seq<BoolExp>, where: Option<BoolExp>, filter: Option<BoolExp>, db: Db, row: Row)
    ensures Passes(MergeTarget(keys, where, filter), db, row) <==>
            AllTrue(keys, db, row) && Passes(where, db, row) && Passes(filter, db, row)
  {
    var ps := keys + SelectPlan.AsList(where) + SelectPlan.AsList(filter);
    AllTrueSplit(keys, SelectPlan.AsList(where), db, row);
    AllTrueSplit(keys + SelectPlan.AsList(where), SelectPlan.AsList(filter), db, row);
    ListedTrue(where, db, row);
    ListedTrue(filter, db, row);
    MergeMeaning(ps, db, row);
  }

  /** An update reaches a row exactly when the row passes the role's filter and
      everything the caller asked for. */
  lemma UpdateReaches(args: seq<(string, Value)>, byPk: bool, perm: UpdatePermission, ctx: TableCtx, md: Metadata, s: Session,
    db: Db, row: Row)
    requires UpdatePlanOf(args, byPk, perm, ctx, md, s).Ok?
    ensures
      var plan := UpdatePlanOf(args, byPk, perm, ctx, md, s).value;
      var asked := ReadUpdateArgs(args, byPk, perm.columns, ctx, md, s).value;
      var filter := RowFilter(perm.filter, ctx, md, s);
      filter.Ok? && (if byPk then asked.keys != [] else asked.where.Some?) &&
      (Passes(plan.target, db, row) <==>
        Passes(filter.value, db, row) && AllTrue(asked.keys, db, row) && Passes(asked.where, db, row))
  {
    var asked := ReadUpdateArgs(args, byPk, perm.columns, ctx, md, s).value;
    TargetMeaning(asked.keys, asked.where, RowFilter(perm.filter, ctx, md, s).value, db, row);
  }

  lemma DeleteReaches(args: seq<(string, Value)>, byPk: bool, filter: Value, ctx: TableCtx, md: Metadata, s: Session, db: Db, row: Row)
    requires DeletePlanOf(args, byPk, filter, ctx, md, s).Ok?
    ensures
      var target := DeletePlanOf(args, byPk, filter, ctx, md, s).value;
      var asked := ReadDeleteArgs(args, byPk, ctx, md, s).value;
      var f := RowFilter(filter, ctx, md, s);
      f.Ok? && (Passes(target, db, row) <==>
        Passes(f.value, db, row) && AllTrue(asked.keys, db, row) && Passes(asked.where, db, row))
  {
    var asked := ReadDeleteArgs(args, byPk, ctx, md, s).value;
    TargetMeaning(asked.keys, asked.where, RowFilter(filter, ctx, md, s).value, db, row);
  }

  /** The row has the given value in a column, which is not NULL. */
  predicate KeyIs(row: Row, column: string, v: Value, pgType: string, eng: Engine) {
    !Get(row, column).Null? && Get(row, column) == LitValue(eng, v, pgType)
  }

  lemma {:induction false} DeleteKeys(args: seq<(string, Value)>, ctx: TableCtx, md: Metadata, s: Session, db: Db, row: Row)
    requires ReadDeleteArgs(args, true, ctx, md, s).Ok?
    ensures ReadDeleteArgs(args, true, ctx, md, s).value.where.None?
    ensures AllTrue(ReadDeleteArgs(args, true, ctx, md, s).value.keys, db, row) <==>
            forall i :: 0 <= i < |args| ==> KeyIs(row, args[i].0, args[i].1, InsertPlan.TypeOf(ctx.entry, args[i].0), db.engine)
  {
    if args != [] {
      var n := |args| - 1;
      DeleteKeys(args[..n], ctx, md, s, db, row);
      var init := ReadDeleteArgs(args[..n], true, ctx, md, s).value.keys;
      var last := KeyEquality(args[n].0, args[n].1, ctx.entry);
      AllTrueSplit(init, [last], db, row);
      ListedTrue(Some(last), db, row);
      assert SelectPlan.AsList(Some(last)) == [last];
      assert forall i :: 0 <= i < n ==> args[..n][i] == args[i];
    }
  }

  /** `delete_by_pk` reaches exactly the permitted rows that carry every key
      value it was given; because no key column is demanded, that is every
      permitted row when none is given. */
  lemma DeleteByPkReaches(args: seq<(string, Value)>, filter: Value, ctx: TableCtx, md: Metadata, s: Session, db: Db, row: Row)
    requires DeletePlanOf(args, true, filter, ctx, md, s).Ok?
    ensures Passes(DeletePlanOf(args, true, filter, ctx, md, s).value, db, row) <==>
      Passes(RowFilter(filter, ctx, md, s).value, db, row) &&
      forall i :: 0 <= i < |args| ==> KeyIs(row, args[i].0, args[i].1, InsertPlan.TypeOf(ctx.entry, args[i].0), db.engine)
  {
    DeleteReaches(args, true, filter, ctx, md, s, db, row);
    DeleteKeys(args, ctx, md, s, db, row);
  }

  /** Given every key column, it reaches at most one row. */
  lemma DeleteByPkReachesOne(args: seq<(string, Value)>, filter: Value, ctx: TableCtx, md: Metadata, s: Session, db: Db,
    rows: seq<Row>, i: nat, j: nat)
    requires DeletePlanOf(args, true, filter, ctx, md, s).Ok? && KeysDistinct(ctx.entry.primaryKey, rows)
    requires forall c :: c in ctx.entry.primaryKey ==> exists k :: 0 <= k < |args| && args[k].0 == c
    requires i < |rows| && j < |rows|
    requires Passes(DeletePlanOf(args, true, filter, ctx, md, s).value, db, rows[i])
    requires Passes(DeletePlanOf(args, true, filter, ctx, md, s).value, db, rows[j])
    ensures i == j
  {
    DeleteByPkReaches(args, filter, ctx, md, s, db, rows[i]);
    DeleteByPkReaches(args, filter, ctx, md, s, db, rows[j]);
    forall c | c in ctx.entry.primaryKey ensures Get(rows[i], c) == Get(rows[j], c) {
      var k :| 0 <= k < |args| && args[k].0 == c;
      assert KeyIs(rows[i], args[k].0, args[k].1, InsertPlan.TypeOf(ctx.entry, args[k].0), db.engine);
      assert KeyIs(rows[j], args[k].0, args[k].1, InsertPlan.TypeOf(ctx.entry, args[k].0), db.engine);
    }
  }

  lemma {:induction false} Assigns(fields: seq<(string, Value)>, inc: bool, columns: Columns, entry: TableEntry)
    requires Assignments(fields, inc, columns, entry).Ok?
    ensures
      var sets := Assignments(fields, inc, columns, entry).value;
      |sets| == |fields| && forall i :: 0 <= i < |sets| ==>
        sets[i].column == fields[i].0 && sets[i].value == fields[i].1 && InsertPlan.KeyAllowed(sets[i].column, columns, entry)
  {
    if fields != [] {
      Assigns(fields[..|fields| - 1], inc, columns, entry);
    }
  }

  predicate GrantedSet(op: SetOp, columns: Columns, entry: TableEntry) {
    op.column in entry.columns && (columns.AllColumns? || op.column in columns.names)
  }

  /** Users assign only columns of the role's mask. */
  lemma {:induction false} UserSetsGranted(args: seq<(string, Value)>, byPk: bool, columns: Columns, ctx: TableCtx, md: Metadata, s: Session)
    requires ReadUpdateArgs(args, byPk, columns, ctx, md, s).Ok?
    ensures
      var sets := ReadUpdateArgs(args, byPk, columns, ctx, md, s).value.sets;
      forall i :: 0 <= i < |sets| ==> GrantedSet(sets[i], columns, ctx.entry)
  {
    if args != [] {
      var n := |args| - 1;
      UserSetsGranted(args[..n], byPk, columns, ctx, md, s);
      if args[n].0 == "_set" || args[n].0 == "_inc" {
        Assigns(args[n].1.fields, args[n].0 == "_inc", columns, ctx.entry);
      }
    }
  }

  predicate DistinctKeys(presets: seq<(string, Value)>) {
    forall i, j :: 0 <= i < j < |presets| ==> presets[i].0 != presets[j].0
  }

  /** The user assigns a column that is also preset. */
  predicate Clashes(user: seq<SetOp>, presets: seq<(string, Value)>) {
    exists i, j :: 0 <= i < |user| && 0 <= j < |presets| && user[i].column == presets[j].0
  }

  /** A preset is appended to the user's assignments, not merged with them: the
      statement assigns no column twice exactly when neither part repeats a
      column and no user assignment meets a preset. Otherwise the database
      refuses it. */
  lemma PresetClash(args: seq<(string, Value)>, byPk: bool, perm: UpdatePermission, ctx: TableCtx, md: Metadata, s: Session)
    requires UpdatePlanOf(args, byPk, perm, ctx, md, s).Ok?
    ensures
      var user := ReadUpdateArgs(args, byPk, perm.columns, ctx, md, s).value.sets;
      var presets := InsertPlan.Presets(perm.preset, ctx.entry, s).value;
      DistinctSets(UpdatePlanOf(args, byPk, perm, ctx, md, s).value.sets) <==>
      DistinctSets(user) && DistinctKeys(presets) && !Clashes(user, presets)
  {
    var user := ReadUpdateArgs(args, byPk, perm.columns, ctx, md, s).value.sets;
    var presets := InsertPlan.Presets(perm.preset, ctx.entry, s).value;
    AppendedDistinct(user, presets, PresetSets(presets, ctx.entry));
  }

  lemma AppendedDistinct(user: seq<SetOp>, presets: seq<(string, Value)>, added: seq<SetOp>)
    requires |added| == |presets| && forall i :: 0 <= i < |added| ==> added[i].column == presets[i].0
    ensures DistinctSets(user + added) <==> DistinctSets(user) && DistinctKeys(presets) && !Clashes(user, presets)
  {
    var sets := user + added;
    assert forall i :: 0 <= i < |user| ==> sets[i] == user[i];
    assert forall j :: 0 <= j < |added| ==> sets[|user| + j] == added[j];
    if DistinctSets(sets) {
      forall i, j | 0 <= i < j < |presets| ensures presets[i].0 != presets[j].0 {
        assert sets[|user| + i].column != sets[|user| + j].column;
      }
      forall i, j | 0 <= i < |user| && 0 <= j < |presets| ensures user[i].column != presets[j].0 {
        assert sets[i].column != sets[|user| + j].column;
      }
    }
    if DistinctSets(user) && DistinctKeys(presets) && !Clashes(user, presets) {
      forall i, j | 0 <= i < j < |sets| ensures sets[i].column != sets[j].column {
        assert sets[i].column == if i < |user| then user[i].column else presets[i - |user|].0;
        assert sets[j].column == if j < |user| then user[j].column else presets[j - |user|].0;
      }
    }
  }
}
