/** What a mutation means without SQL, and that its statement does exactly that. */
module MutationCorrect {
  import opened Values
  import opened Database
  import opened Ir
  import opened Sql
  import opened SqlGen
  import opened PredicateCorrect
  import opened Meaning
  import opened Storage
  import opened MutationSql
  import SelectCorrect

  // ----- direct meaning -----

  ghost function TargetMask(target: Option<BoolExp>, rows: seq<Row>, db: Db): (mask: seq<bool>)
    ensures |mask| == |rows| && forall i :: 0 <= i < |rows| ==> mask[i] == Passes(target, db, rows[i])
  {
    seq(|rows|, i requires 0 <= i < |rows| => Passes(target, db, rows[i]))
  }

  /** The change a root makes: every row that passes its target, and no other. */
  ghost function Change(root: MutationRoot, w: World, rules: Rules): Result<Effect, DbError>
    requires WellFormedRoot(root)
  {
    match root
    case MutationTypename(_, _) => Ok(Effect(w, []))
    case InsertRoot(_, t, columns, rows, _, _) => InsertInto(w, t, columns, rows, rules)
    case UpdateRoot(_, t, sets, target, _, _) => UpdateRows(w, t, TargetMask(target, Rows(w.db, t), w.db), sets, rules)
    case DeleteRoot(_, t, target, _) => DeleteRows(w, t, TargetMask(target, Rows(w.db, t), w.db), rules)
  }

  function CheckOf(root: MutationRoot): Option<BoolExp> {
    match root
    case InsertRoot(_, _, _, _, check, _) => check
    case UpdateRoot(_, _, _, _, check, _) => check
    case _ => None
  }

  /** A check is violated by FALSE only; UNKNOWN passes. */
  ghost predicate Violates(check: Option<BoolExp>, rows: seq<Row>, db: Db) {
    check.Some? && exists i :: 0 <= i < |rows| && Holds(check.value, db, rows[i], rows[i]).False?
  }

  ghost function PartJson(part: ResponseField, rows: seq<Row>, db: Db, stringify: bool): (string, Value) {
    match part
    case AffectedRows(alias) => (alias, Num(|rows|))
    case ResponseTypename(alias, name) => (alias, Text(name))
    case Returning(alias, fields) => (alias, RowsJson(fields, rows, db, stringify))
  }

  ghost function OutputJson(output: Output, rows: seq<Row>, db: Db, stringify: bool): Value {
    match output
    case Response(parts) => Obj(seq(|parts|, i requires 0 <= i < |parts| => PartJson(parts[i], rows, db, stringify)))
    case SingleRow(fields) => if rows == [] then Null else RowJson(fields, rows[0], db, stringify)
  }

  ghost function MutationMeaning(root: MutationRoot, w: World, rules: Rules, stringify: bool): Result<(World, Value), DbError>
    requires WellFormedRoot(root)
  {
    if root.MutationTypename? then Ok((w, Text(root.name)))
    else
      var change := Change(root, w, rules);
      if change.Err? then Err(change.error)
      else
        var rows := change.value.touched;
        Finish(change.value, Violates(CheckOf(root), rows, w.db), OutputJson(root.output, rows, w.db, stringify))
  }

  // ----- the statement agrees -----

  /** A fixed name not of the form _tN is never handed out. */
  lemma NotNumbered(alias: string, n: nat)
    requires |alias| >= 2 && (alias[0] != '_' || alias[1] != 't')
    ensures Older(alias, n)
  {
    forall k: nat | k >= n ensures alias != AliasName(k) {
      assert AliasName(k)[0] == '_' && AliasName(k)[1] == 't';
    }
  }

  lemma TargetCorrect(target: Option<BoolExp>, rows: seq<Row>, alias: string, db: Db)
    requires Older(alias, 0)
    ensures WhereMask(rows, alias, FilterSql(target, alias, 0).it, map[], db) == TargetMask(target, rows, db)
  {
    forall i | 0 <= i < |rows| {
      SelectCorrect.FilterCorrect(target, alias, 0, map[alias := rows[i]], db);
    }
  }

  lemma CheckCorrect(check: BoolExp, cte: string, n: nat, rows: seq<Row>, db: Db)
    requires Older(cte, n)
    ensures CheckFails(Some(BoolSql(check, cte, cte, n).it), cte, rows, db) <==> Violates(Some(check), rows, db)
  {
    var c := BoolSql(check, cte, cte, n).it;
    var mask := WhereMask(rows, cte, [CNot(c)], map[], db);
    KeepNonEmpty(rows, mask);
    forall i | 0 <= i < |rows| ensures mask[i] <==> Holds(check, db, rows[i], rows[i]).False? {
      var env := map[cte := rows[i]];
      WhereSingle(CNot(c), env, db);
      BoolCorrect(check, cte, cte, n, env, db);
    }
  }

  lemma PartCorrect(part: ResponseField, cte: string, n: nat, rows: seq<Row>, db: Db, stringify: bool)
    requires Older(cte, n) && (part.Returning? ==> WellFormedRow(part.fields))
    ensures EvalAggPair(PartSql(part, cte, n, stringify).it, rows, cte, map[], db) == PartJson(part, rows, db, stringify)
  {
    match part
    case AffectedRows(_) =>
    case ResponseTypename(_, name) =>
      assert EvalExpr(TextLit(name), map[], db) == Text(name);
    case Returning(_, fields) =>
      SelectCorrect.RowsCorrect(fields, rows, cte, n, map[], db, stringify);
      var row := BuildObject(RowSql(fields, cte, n, stringify).it);
      assert EvalAgg(JsonAgg(row), rows, cte, map[], db) == Arr(PerRow(row, rows, cte, map[], db));
  }

  lemma {:induction false} PartAt(parts: seq<ResponseField>, i: nat, cte: string, n: nat, rows: seq<Row>, db: Db, stringify: bool)
    requires Older(cte, n) && i < |parts|
    requires forall i :: 0 <= i < |parts| && parts[i].Returning? ==> WellFormedRow(parts[i].fields)
    ensures EvalAggPair(PartsSql(parts, cte, n, stringify).it[i], rows, cte, map[], db) == PartJson(parts[i], rows, db, stringify)
  {
    var k := |parts| - 1;
    var init := PartsSql(parts[..k], cte, n, stringify);
    if i < k {
      assert PartsSql(parts, cte, n, stringify).it[i] == init.it[i] && parts[..k][i] == parts[i];
      PartAt(parts[..k], i, cte, n, rows, db, stringify);
    } else {
      PartCorrect(parts[k], cte, init.next, rows, db, stringify);
    }
  }

  lemma OutputCorrect(output: Output, cte: string, n: nat, rows: seq<Row>, db: Db, stringify: bool)
    requires Older(cte, n) && WellFormedOutput(output)
    ensures EvalResult(OutputSql(output, cte, n, stringify).it, cte, rows, db) == OutputJson(output, rows, db, stringify)
  {
    match output
    case SingleRow(fields) =>
      if rows != [] {
        SelectCorrect.RowCorrect(fields, cte, n, map[cte := rows[0]], db, stringify);
      }
    case Response(parts) =>
      var pairs := PartsSql(parts, cte, n, stringify).it;
      var json := seq(|parts|, i requires 0 <= i < |parts| => PartJson(parts[i], rows, db, stringify));
      forall i | 0 <= i < |parts| ensures EvalAggPairs(pairs, rows, cte, map[], db)[i] == json[i] {
        PartAt(parts, i, cte, n, rows, db, stringify);
      }
      assert EvalAggPairs(pairs, rows, cte, map[], db) == json;
  }

  /** The response and the check of any statement, once its rows are known. */
  lemma SelectPartCorrect(cte: string, dml: Dml, check: Option<BoolExp>, output: Output, n: nat, w: World, rules: Rules,
    stringify: bool, change: Result<Effect, DbError>)
    requires Older(cte, n) && WellFormedOutput(output) && Rectangular(dml) && RunDml(dml, w, rules) == change
    ensures
      RunStatement(MutationSelect(cte, dml, check, output, n, stringify).it, w, rules) ==
      if change.Err? then Err(change.error)
      else
        var rows := change.value.touched;
        Finish(change.value, Violates(check, rows, w.db), OutputJson(output, rows, w.db, stringify))
  {
    if change.Ok? {
      var rows := change.value.touched;
      var result := OutputSql(output, cte, n, stringify);
      OutputCorrect(output, cte, n, rows, w.db, stringify);
      if check.Some? {
        CheckCorrect(check.value, cte, result.next, rows, w.db);
      }
    }
  }

  /** Main result: each mutation statement does what its root means. */
  lemma StatementCorrect(root: MutationRoot, w: World, rules: Rules, stringify: bool)
    requires WellFormedRoot(root)
    ensures
      var st := MutationToSql(root, stringify);
      (st.WithDml? ==> Rectangular(st.dml)) && RunStatement(st, w, rules) == MutationMeaning(root, w, rules, stringify)
  {
    var change := Change(root, w, rules);
    match root
    case MutationTypename(_, _) =>
    case InsertRoot(_, t, columns, rows, check, output) =>
      NotNumbered("ins", 0);
      SelectPartCorrect("ins", InsertDml(t, columns, rows), check, output, 0, w, rules, stringify, change);
    case UpdateRoot(_, t, sets, target, check, output) =>
      NotNumbered("_upd_target", 0);
      TargetCorrect(target, Rows(w.db, t), "_upd_target", w.db);
      var where := FilterSql(target, "_upd_target", 0);
      NotNumbered("upd", where.next);
      SelectPartCorrect("upd", UpdateDml(t, "_upd_target", sets, where.it), check, output, where.next, w, rules, stringify, change);
    case DeleteRoot(_, t, target, output) =>
      NotNumbered("_del_target", 0);
      TargetCorrect(target, Rows(w.db, t), "_del_target", w.db);
      var where := FilterSql(target, "_del_target", 0);
      NotNumbered("del", where.next);
      SelectPartCorrect("del", DeleteDml(t, "_del_target", where.it), None, output, where.next, w, rules, stringify, change);
  }
}
