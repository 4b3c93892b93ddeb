/** What a mutation does to a row, read from its JSON arguments and the role's
    permission: which rows an update reaches, the new value of every column, and
    the check that no row may fail. */
module MutationReading {
  import opened Values
  import opened Database
  import opened Planner
  import opened Meaning
  import opened Storage
  import opened MutationSql
  import opened MutationPlan
  import opened FilterReading
  import opened FilterReadingCorrect
  import opened FilterMeaning
  import InsertPlan
  import JsonAccess
  import Conjunctions
  import SelectPlan

  // ----- filters and checks of a permission -----

  /** An absent filter, null and `{}` are no filter. */
  ghost predicate Absent(filter: Value) {
    filter == Null || filter == Obj([])
  }

  ghost function PermissionTruth(filter: Value, ctx: TableCtx, q: Scope, row: Row): Tri {
    if Absent(filter) then True
    else Reads(Substituted(filter, ctx.(perms := []), q.(perm := true)), ctx.(perms := []), q.(perm := true), row, row)
  }

  lemma {:induction false} FilterTruth(filter: Value, ctx: TableCtx, q: Scope, row: Row)
    requires RowFilter(filter, ctx, q.md, q.s).Ok?
    ensures
      var f := RowFilter(filter, ctx, q.md, q.s).value;
      (Passes(f, q.db, row) <==> PermissionTruth(filter, ctx, q, row).True?) &&
      ((f.Some? && Holds(f.value, q.db, row, row).False?) <==> PermissionTruth(filter, ctx, q, row).False?)
  {
    if !Absent(filter) {
      Means(filter, ctx.(perms := []), q.(perm := true), row, row);
    }
  }

  /** The check of a permission is FALSE on the row. */
  ghost predicate FailsCheck(check: Option<Value>, ctx: TableCtx, q: Scope, row: Row) {
    check.Some? && PermissionTruth(check.value, ctx, q, row).False?
  }

  // ----- assignments -----

  /** The new value an argument gives to a column: `_set` a literal, `_inc` the old
      value plus a literal. */
  function NewValue(arg: string, v: Value, pgType: string, stored: Value, eng: Engine, rules: Rules): Value {
    if arg == "_inc" then rules.plus(stored, TypedLiteral(eng, v, pgType)) else TypedLiteral(eng, v, pgType)
  }

  predicate AssignsColumns(arg: (string, Value)) {
    (arg.0 == "_set" || arg.0 == "_inc") && arg.1.Obj?
  }

  /** Every column the user assigns has its new value. */
  ghost predicate UserAssigned(args: seq<(string, Value)>, entry: TableEntry, was: Row, now: Row, eng: Engine, rules: Rules) {
    forall i, k :: 0 <= i < |args| && AssignsColumns(args[i]) && 0 <= k < |args[i].1.fields| ==>
      FieldAssigned(args[i].0, args[i].1.fields[k], entry, was, now, eng, rules)
  }

  predicate FieldAssigned(arg: string, field: (string, Value), entry: TableEntry, was: Row, now: Row, eng: Engine, rules: Rules) {
    field.0 in entry.columns && Get(now, field.0) == NewValue(arg, field.1, entry.columns[field.0], Get(was, field.0), eng, rules)
  }

  /** So has every preset column of the table, a session variable standing for its value. */
  ghost predicate PresetAssigned(preset: seq<(string, Value)>, entry: TableEntry, now: Row, q: Scope) {
    forall i :: 0 <= i < |preset| && preset[i].0 in entry.columns ==>
      Get(now, preset[i].0) == TypedLiteral(q.db.engine, Resolved(preset[i].1, q.(perm := true)), entry.columns[preset[i].0])
  }

  predicate UserMentions(args: seq<(string, Value)>, c: string) {
    exists i, k :: 0 <= i < |args| && AssignsColumns(args[i]) && 0 <= k < |args[i].1.fields| && args[i].1.fields[k].0 == c
  }

  predicate Mentioned(args: seq<(string, Value)>, preset: seq<(string, Value)>, c: string) {
    UserMentions(args, c) || exists i :: 0 <= i < |preset| && preset[i].0 == c
  }

  // ----- the planned assignments are those of the JSON -----

  lemma {:induction false} AssignmentAt(fields: seq<(string, Value)>, k: nat, inc: bool, columns: Columns, entry: TableEntry)
    requires Assignments(fields, inc, columns, entry).Ok? && k < |fields|
    ensures
      var sets := Assignments(fields, inc, columns, entry).value;
      |sets| == |fields| && fields[k].0 in entry.columns &&
      sets[k] == if inc then Inc(fields[k].0, entry.columns[fields[k].0], fields[k].1)
                 else Set(fields[k].0, entry.columns[fields[k].0], fields[k].1)
  {
    var n := |fields| - 1;
    if n > 0 {
      AssignmentAt(fields[..n], if k < n then k else 0, inc, columns, entry);
    }
  }

  /** What one assignment operation stands for. */
  predicate StandsFor(op: SetOp, arg: string, field: (string, Value), entry: TableEntry) {
    field.0 in entry.columns &&
    op == if arg == "_inc" then Inc(field.0, entry.columns[field.0], field.1) else Set(field.0, entry.columns[field.0], field.1)
  }

  lemma {:induction false} UserSetListed(args: seq<(string, Value)>, byPk: bool, columns: Columns, ctx: TableCtx, md: Metadata, s: Session,
    i: nat, k: nat) returns (j: nat)
    requires ReadUpdateArgs(args, byPk, columns, ctx, md, s).Ok?
    requires i < |args| && AssignsColumns(args[i]) && k < |args[i].1.fields|
    ensures
      var sets := ReadUpdateArgs(args, byPk, columns, ctx, md, s).value.sets;
      j < |sets| && StandsFor(sets[j], args[i].0, args[i].1.fields[k], ctx.entry)
  {
    var n := |args| - 1;
    var before := ReadUpdateArgs(args[..n], byPk, columns, ctx, md, s).value;
    if i < n {
      j := UserSetListed(args[..n], byPk, columns, ctx, md, s, i, k);
    } else {
      AssignmentAt(args[n].1.fields, k, args[n].0 == "_inc", columns, ctx.entry);
      j := |before.sets| + k;
    }
  }

  lemma {:induction false} AddedKnown(arg: (string, Value), sets: seq<SetOp>, columns: Columns, entry: TableEntry, k: nat)
    requires AssignsColumns(arg) && Assignments(arg.1.fields, arg.0 == "_inc", columns, entry) == Ok(sets) && k < |sets|
    ensures k < |arg.1.fields| && sets[k].column == arg.1.fields[k].0
  {
    Assigns(arg.1.fields, arg.0 == "_inc", columns, entry);
  }

  lemma {:induction false} UserSetKnown(args: seq<(string, Value)>, byPk: bool, columns: Columns, ctx: TableCtx, md: Metadata, s: Session, j: nat)
    requires ReadUpdateArgs(args, byPk, columns, ctx, md, s).Ok? && j < |ReadUpdateArgs(args, byPk, columns, ctx, md, s).value.sets|
    ensures UserMentions(args, ReadUpdateArgs(args, byPk, columns, ctx, md, s).value.sets[j].column)
  {
    var n := |args| - 1;
    var before, sets := ReadUpdateArgs(args[..n], byPk, columns, ctx, md, s).value.sets, ReadUpdateArgs(args, byPk, columns, ctx, md, s).value.sets;
    if j < |before| {
      UserSetKnown(args[..n], byPk, columns, ctx, md, s, j);
      MentionsMore(args, sets[j].column);
    } else {
      var k := j - |before|;
      AddedKnown(args[n], Assignments(args[n].1.fields, args[n].0 == "_inc", columns, ctx.entry).value, columns, ctx.entry, k);
      assert args[n].1.fields[k].0 == sets[j].column;
    }
  }

  lemma {:induction false} MentionsMore(args: seq<(string, Value)>, c: string)
    requires args != [] && UserMentions(args[..|args| - 1], c)
    ensures UserMentions(args, c)
  {
    var before := args[..|args| - 1];
    var i, k :| 0 <= i < |before| && AssignsColumns(before[i]) && 0 <= k < |before[i].1.fields| && before[i].1.fields[k].0 == c;
    assert args[i] == before[i];
  }

  lemma {:induction false} PresetListed(preset: seq<(string, Value)>, entry: TableEntry, q: Scope, i: nat) returns (j: nat)
    requires InsertPlan.Presets(preset, entry, q.s).Ok? && i < |preset| && preset[i].0 in entry.columns
    ensures
      var presets := InsertPlan.Presets(preset, entry, q.s).value;
      j < |presets| && presets[j] == (preset[i].0, Resolved(preset[i].1, q.(perm := true)))
  {
    var n := |preset| - 1;
    var before := InsertPlan.Presets(preset[..n], entry, q.s).value;
    if i < n {
      j := PresetListed(preset[..n], entry, q, i);
    } else {
      ResolvedSame(preset[n].1, q.(perm := true));
      j := |before|;
    }
  }

  // ----- what the assignments do -----

  /** Where no column is assigned twice, each has the value it is assigned. */
  lemma {:induction false} AssignedAt(sets: seq<SetOp>, j: nat, row: Row, eng: Engine, rules: Rules)
    requires DistinctSets(sets) && j < |sets|
    ensures
      var v := LitValue(eng, sets[j].value, sets[j].pgType);
      Get(Assigned(sets, row, eng, rules), sets[j].column) == if sets[j].Set? then v else rules.plus(Get(row, sets[j].column), v)
  {
    var n := |sets| - 1;
    if j < n {
      AssignedAt(sets[..n], j, row, eng, rules);
      assert sets[j].column != sets[n].column;
    }
  }

  lemma {:induction false} AssignedElsewhere(sets: seq<SetOp>, c: string, row: Row, eng: Engine, rules: Rules)
    requires forall j :: 0 <= j < |sets| ==> sets[j].column != c
    ensures Get(Assigned(sets, row, eng, rules), c) == Get(row, c)
  {
    if sets != [] {
      AssignedElsewhere(sets[..|sets| - 1], c, row, eng, rules);
    }
  }

  lemma {:induction false} UserValues(args: seq<(string, Value)>, byPk: bool, perm: UpdatePermission, ctx: TableCtx, q: Scope, was: Row,
    rules: Rules, sets: seq<SetOp>)
    requires ReadUpdateArgs(args, byPk, perm.columns, ctx, q.md, q.s).Ok? && DistinctSets(sets)
    requires ReadUpdateArgs(args, byPk, perm.columns, ctx, q.md, q.s).value.sets <= sets
    ensures UserAssigned(args, ctx.entry, was, Assigned(sets, was, q.db.engine, rules), q.db.engine, rules)
  {
    forall i, k | 0 <= i < |args| && AssignsColumns(args[i]) && 0 <= k < |args[i].1.fields|
      ensures FieldAssigned(args[i].0, args[i].1.fields[k], ctx.entry, was, Assigned(sets, was, q.db.engine, rules), q.db.engine, rules)
    {
      var j := UserSetListed(args, byPk, perm.columns, ctx, q.md, q.s, i, k);
      StandsForValue(sets, j, args[i].0, args[i].1.fields[k], ctx.entry, was, q.db.engine, rules);
    }
  }

  lemma {:induction false} StandsForValue(sets: seq<SetOp>, j: nat, arg: string, field: (string, Value), entry: TableEntry, was: Row, eng: Engine,
    rules: Rules)
    requires DistinctSets(sets) && j < |sets| && StandsFor(sets[j], arg, field, entry)
    ensures FieldAssigned(arg, field, entry, was, Assigned(sets, was, eng, rules), eng, rules)
  {
    AssignedAt(sets, j, was, eng, rules);
    LiteralSame(eng, field.1, entry.columns[field.0]);
  }

  lemma {:induction false} PresetValues(preset: seq<(string, Value)>, entry: TableEntry, q: Scope, was: Row, rules: Rules, user: seq<SetOp>,
    sets: seq<SetOp>)
    requires InsertPlan.Presets(preset, entry, q.s).Ok? && DistinctSets(sets)
    requires sets == user + PresetSets(InsertPlan.Presets(preset, entry, q.s).value, entry)
    ensures PresetAssigned(preset, entry, Assigned(sets, was, q.db.engine, rules), q)
  {
    var presets := InsertPlan.Presets(preset, entry, q.s).value;
    forall i | 0 <= i < |preset| && preset[i].0 in entry.columns
      ensures Get(Assigned(sets, was, q.db.engine, rules), preset[i].0) ==
              TypedLiteral(q.db.engine, Resolved(preset[i].1, q.(perm := true)), entry.columns[preset[i].0])
    {
      var j := PresetListed(preset, entry, q, i);
      assert sets[|user| + j] == PresetSets(presets, entry)[j];
      AssignedAt(sets, |user| + j, was, q.db.engine, rules);
      LiteralSame(q.db.engine, presets[j].1, entry.columns[preset[i].0]);
    }
  }

  lemma {:induction false} OtherValues(args: seq<(string, Value)>, byPk: bool, perm: UpdatePermission, ctx: TableCtx, q: Scope, was: Row,
    rules: Rules, sets: seq<SetOp>, c: string)
    requires ReadUpdateArgs(args, byPk, perm.columns, ctx, q.md, q.s).Ok? && InsertPlan.Presets(perm.preset, ctx.entry, q.s).Ok?
    requires sets == ReadUpdateArgs(args, byPk, perm.columns, ctx, q.md, q.s).value.sets +
                     PresetSets(InsertPlan.Presets(perm.preset, ctx.entry, q.s).value, ctx.entry)
    requires !Mentioned(args, perm.preset, c)
    ensures Get(Assigned(sets, was, q.db.engine, rules), c) == Get(was, c)
  {
    var user := ReadUpdateArgs(args, byPk, perm.columns, ctx, q.md, q.s).value.sets;
    var presets := InsertPlan.Presets(perm.preset, ctx.entry, q.s).value;
    forall j | 0 <= j < |sets| ensures sets[j].column != c {
      if j < |user| {
        UserSetKnown(args, byPk, perm.columns, ctx, q.md, q.s, j);
      } else {
        InsertPlan.PresetsKnown(perm.preset, ctx.entry, q.s);
        var k := j - |user|;
        assert sets[j].column == presets[k].0;
        PresetNamed(perm.preset, presets, k, ctx.entry);
      }
    }
    AssignedElsewhere(sets, c, was, q.db.engine, rules);
  }

  lemma {:induction false} PresetNamed(preset: seq<(string, Value)>, presets: seq<(string, Value)>, k: nat, entry: TableEntry)
    requires k < |presets|
    requires forall c :: JsonAccess.HasKey(presets, c) <==> JsonAccess.HasKey(preset, c) && c in entry.columns
    ensures exists i :: 0 <= i < |preset| && preset[i].0 == presets[k].0
  {
    assert JsonAccess.HasKey(presets, presets[k].0);
  }

  // ----- which rows -----

  /** The `where` of the arguments; a later one replaces an earlier one. */
  function LastWhere(args: seq<(string, Value)>): Option<Value> {
    if args == [] then None
    else
      var n := |args| - 1;
      if args[n].0 == "where" then Some(args[n].1) else LastWhere(args[..n])
  }

  /** The row carries every value of every `pk_columns` object. */
  ghost predicate KeysCarried(args: seq<(string, Value)>, entry: TableEntry, row: Row, eng: Engine) {
    forall i, k :: 0 <= i < |args| && args[i].0 == "pk_columns" && args[i].1.Obj? && 0 <= k < |args[i].1.fields| ==>
      KeyCarried(args[i].1.fields[k], entry, row, eng)
  }

  predicate KeyCarried(key: (string, Value), entry: TableEntry, row: Row, eng: Engine) {
    key.0 in entry.columns && Equal(Get(row, key.0), TypedLiteral(eng, key.1, entry.columns[key.0])).True?
  }

  /** What the arguments ask for. */
  ghost predicate Targets(args: seq<(string, Value)>, byPk: bool, ctx: TableCtx, q: Scope, row: Row)
    requires !q.perm
  {
    if byPk then KeysCarried(args, ctx.entry, row, q.db.engine)
    else LastWhere(args).Some? && Reads(LastWhere(args).value, ctx, q, row, row).True?
  }

  lemma {:induction false} EqualitiesMean(fields: seq<(string, Value)>, entry: TableEntry, db: Db, row: Row)
    requires KeyEqualities(fields, entry).Ok?
    ensures Conjunctions.AllTrue(KeyEqualities(fields, entry).value, db, row) <==>
            forall k :: 0 <= k < |fields| ==> KeyCarried(fields[k], entry, row, db.engine)
  {
    if fields != [] {
      var n := |fields| - 1;
      EqualitiesMean(fields[..n], entry, db, row);
      var init, last := KeyEqualities(fields[..n], entry).value, KeyEquality(fields[n].0, fields[n].1, entry);
      Conjunctions.AllTrueSplit(init, [last], db, row);
      Conjunctions.ListedTrue(Some(last), db, row);
      LiteralSame(db.engine, fields[n].1, entry.columns[fields[n].0]);
      assert SelectPlan.AsList(Some(last)) == [last];
      assert forall k :: 0 <= k < n ==> fields[..n][k] == fields[k];
    }
  }

  lemma {:induction false} KeysMean(args: seq<(string, Value)>, columns: Columns, ctx: TableCtx, q: Scope, row: Row)
    requires ReadUpdateArgs(args, true, columns, ctx, q.md, q.s).Ok?
    ensures ReadUpdateArgs(args, true, columns, ctx, q.md, q.s).value.where.None?
    ensures Conjunctions.AllTrue(ReadUpdateArgs(args, true, columns, ctx, q.md, q.s).value.keys, q.db, row) <==>
            KeysCarried(args, ctx.entry, row, q.db.engine)
  {
    if args != [] {
      var n := |args| - 1;
      KeysMean(args[..n], columns, ctx, q, row);
      KeysCarriedSnoc(args, ctx.entry, row, q.db.engine);
      if args[n].0 == "pk_columns" {
        var before := ReadUpdateArgs(args[..n], true, columns, ctx, q.md, q.s).value.keys;
        EqualitiesMean(args[n].1.fields, ctx.entry, q.db, row);
        Conjunctions.AllTrueSplit(before, KeyEqualities(args[n].1.fields, ctx.entry).value, q.db, row);
      }
    }
  }

  lemma {:induction false} KeysCarriedSnoc(args: seq<(string, Value)>, entry: TableEntry, row: Row, eng: Engine)
    requires args != []
    ensures
      var last := args[|args| - 1];
      KeysCarried(args, entry, row, eng) <==>
      KeysCarried(args[..|args| - 1], entry, row, eng) &&
      (last.0 == "pk_columns" && last.1.Obj? ==> forall k :: 0 <= k < |last.1.fields| ==> KeyCarried(last.1.fields[k], entry, row, eng))
  {
    var n := |args| - 1;
    assert forall i :: 0 <= i < n ==> args[..n][i] == args[i];
  }

  lemma {:induction false} WhereMeans(args: seq<(string, Value)>, columns: Columns, ctx: TableCtx, q: Scope, row: Row)
    requires !q.perm && ReadUpdateArgs(args, false, columns, ctx, q.md, q.s).Ok?
    ensures
      var asked := ReadUpdateArgs(args, false, columns, ctx, q.md, q.s).value;
      asked.keys == [] && (asked.where.Some? <==> LastWhere(args).Some?) &&
      (asked.where.Some? ==> (Passes(asked.where, q.db, row) <==> Reads(LastWhere(args).value, ctx, q, row, row).True?))
  {
    if args != [] {
      var n := |args| - 1;
      WhereMeans(args[..n], columns, ctx, q, row);
      if args[n].0 == "where" {
        UserMeans(args[n].1, ctx, q, row, row);
      }
    }
  }

  /** A planned update reaches exactly the rows that the arguments ask for and that
      the permission's filter passes. */
  lemma {:induction false} UpdateTargets(args: seq<(string, Value)>, byPk: bool, perm: UpdatePermission, ctx: TableCtx, q: Scope, row: Row)
    requires !q.perm && UpdatePlanOf(args, byPk, perm, ctx, q.md, q.s).Ok?
    ensures Passes(UpdatePlanOf(args, byPk, perm, ctx, q.md, q.s).value.target, q.db, row) <==>
            Targets(args, byPk, ctx, q, row) && PermissionTruth(perm.filter, ctx, q, row).True?
  {
    UpdateReaches(args, byPk, perm, ctx, q.md, q.s, q.db, row);
    FilterTruth(perm.filter, ctx, q, row);
    if byPk {
      KeysMean(args, perm.columns, ctx, q, row);
    } else {
      WhereMeans(args, perm.columns, ctx, q, row);
    }
  }

  // ----- one updated row -----

  /** The row after an update, from the JSON alone. */
  ghost predicate UpdateReads(args: seq<(string, Value)>, byPk: bool, perm: UpdatePermission, ctx: TableCtx, q: Scope, was: Row, now: Row,
    rules: Rules)
    requires !q.perm
  {
    if Targets(args, byPk, ctx, q, was) && PermissionTruth(perm.filter, ctx, q, was).True? then
      UserAssigned(args, ctx.entry, was, now, q.db.engine, rules) && PresetAssigned(perm.preset, ctx.entry, now, q) &&
      (forall c :: !Mentioned(args, perm.preset, c) ==> Get(now, c) == Get(was, c)) &&
      !FailsCheck(perm.check, ctx, q, now)
    else now == was
  }

  lemma {:induction false} AssignedReads(args: seq<(string, Value)>, byPk: bool, perm: UpdatePermission, ctx: TableCtx, q: Scope, was: Row,
    rules: Rules)
    requires UpdatePlanOf(args, byPk, perm, ctx, q.md, q.s).Ok? && DistinctSets(UpdatePlanOf(args, byPk, perm, ctx, q.md, q.s).value.sets)
    ensures
      var now := Assigned(UpdatePlanOf(args, byPk, perm, ctx, q.md, q.s).value.sets, was, q.db.engine, rules);
      UserAssigned(args, ctx.entry, was, now, q.db.engine, rules) && PresetAssigned(perm.preset, ctx.entry, now, q) &&
      forall c :: !Mentioned(args, perm.preset, c) ==> Get(now, c) == Get(was, c)
  {
    var sets := UpdatePlanOf(args, byPk, perm, ctx, q.md, q.s).value.sets;
    var user := ReadUpdateArgs(args, byPk, perm.columns, ctx, q.md, q.s).value.sets;
    UserValues(args, byPk, perm, ctx, q, was, rules, sets);
    PresetValues(perm.preset, ctx.entry, q, was, rules, user, sets);
    forall c | !Mentioned(args, perm.preset, c) ensures Get(Assigned(sets, was, q.db.engine, rules), c) == Get(was, c) {
      OtherValues(args, byPk, perm, ctx, q, was, rules, sets, c);
    }
  }

  lemma {:induction false} CheckTruth(args: seq<(string, Value)>, byPk: bool, perm: UpdatePermission, ctx: TableCtx, q: Scope, row: Row)
    requires UpdatePlanOf(args, byPk, perm, ctx, q.md, q.s).Ok?
    ensures
      var check := UpdatePlanOf(args, byPk, perm, ctx, q.md, q.s).value.check;
      (check.Some? && Holds(check.value, q.db, row, row).False?) <==> FailsCheck(perm.check, ctx, q, row)
  {
    if perm.check.Some? {
      FilterTruth(perm.check.value, ctx, q, row);
    }
  }

  // ----- deletes -----

  /** What the arguments of a delete ask for: every key value, or the `where`. */
  ghost predicate DeleteAsks(args: seq<(string, Value)>, byPk: bool, ctx: TableCtx, q: Scope, row: Row)
    requires !q.perm
  {
    if byPk then forall i :: 0 <= i < |args| ==> KeyCarried(args[i], ctx.entry, row, q.db.engine)
    else LastWhere(args).Some? && Reads(LastWhere(args).value, ctx, q, row, row).True?
  }

  lemma {:induction false} DeleteWhereMeans(args: seq<(string, Value)>, ctx: TableCtx, q: Scope, row: Row)
    requires !q.perm && ReadDeleteArgs(args, false, ctx, q.md, q.s).Ok?
    ensures
      var asked := ReadDeleteArgs(args, false, ctx, q.md, q.s).value;
      asked.keys == [] && (asked.where.Some? <==> LastWhere(args).Some?) &&
      (asked.where.Some? ==> (Passes(asked.where, q.db, row) <==> Reads(LastWhere(args).value, ctx, q, row, row).True?))
  {
    if args != [] {
      var n := |args| - 1;
      DeleteWhereMeans(args[..n], ctx, q, row);
      UserMeans(args[n].1, ctx, q, row, row);
    }
  }

  lemma {:induction false} DeleteKeysKnown(args: seq<(string, Value)>, ctx: TableCtx, q: Scope)
    requires ReadDeleteArgs(args, true, ctx, q.md, q.s).Ok?
    ensures forall i :: 0 <= i < |args| ==> args[i].0 in ctx.entry.columns && args[i].0 in ctx.entry.primaryKey
  {
    if args != [] {
      DeleteKeysKnown(args[..|args| - 1], ctx, q);
    }
  }

  /** A planned delete reaches exactly the rows that the arguments ask for and that the
      permission's filter passes. */
  lemma {:induction false} DeleteTargets(args: seq<(string, Value)>, byPk: bool, filter: Value, ctx: TableCtx, q: Scope, row: Row)
    requires !q.perm && DeletePlanOf(args, byPk, filter, ctx, q.md, q.s).Ok?
    ensures Passes(DeletePlanOf(args, byPk, filter, ctx, q.md, q.s).value, q.db, row) <==>
            DeleteAsks(args, byPk, ctx, q, row) && PermissionTruth(filter, ctx, q, row).True?
    ensures byPk ==> forall i :: 0 <= i < |args| ==> args[i].0 in ctx.entry.primaryKey
  {
    DeleteReaches(args, byPk, filter, ctx, q.md, q.s, q.db, row);
    FilterTruth(filter, ctx, q, row);
    if byPk {
      DeleteKeys(args, ctx, q.md, q.s, q.db, row);
      DeleteKeysKnown(args, ctx, q);
      forall i | 0 <= i < |args|
        ensures KeyIs(row, args[i].0, args[i].1, InsertPlan.TypeOf(ctx.entry, args[i].0), q.db.engine) <==> KeyCarried(args[i], ctx.entry, row, q.db.engine)
      {
        LiteralSame(q.db.engine, args[i].1, ctx.entry.columns[args[i].0]);
      }
    } else {
      DeleteWhereMeans(args, ctx, q, row);
    }
  }
}
