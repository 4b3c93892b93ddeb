/** Mutation root fields, the one statement each compiles to (a DML statement in
    a CTE, its permission check and its response), and how that statement runs. */
module MutationSql {
  import opened Values
  import opened Database
  import opened Ir
  import opened Sql
  import opened SqlGen
  import opened Storage

  datatype SetOp = Set(column: string, pgType: string, value: Value) | Inc(column: string, pgType: string, value: Value)

  datatype ResponseField =
    | AffectedRows(alias: string)
    | Returning(alias: string, fields: seq<OutputField>)
    | ResponseTypename(alias: string, name: string)

  datatype Output = Response(parts: seq<ResponseField>) | SingleRow(fields: seq<OutputField>)

  datatype MutationRoot =
    | InsertRoot(alias: string, table: Table, columns: seq<(string, string)>, rows: seq<seq<Option<Value>>>,
        check: Option<BoolExp>, output: Output)
    | UpdateRoot(alias: string, table: Table, sets: seq<SetOp>, target: Option<BoolExp>, check: Option<BoolExp>, output: Output)
    | DeleteRoot(alias: string, table: Table, target: Option<BoolExp>, output: Output)
    | MutationTypename(alias: string, name: string)

  /** Rows match the column list and the selected fields make sense in a row. */
  ghost predicate WellFormedRoot(root: MutationRoot) {
    match root
    case InsertRoot(_, _, columns, rows, _, output) =>
      (forall i :: 0 <= i < |rows| ==> |rows[i]| == |columns|) && WellFormedOutput(output)
    case UpdateRoot(_, _, _, _, _, output) => WellFormedOutput(output)
    case DeleteRoot(_, _, _, output) => WellFormedOutput(output)
    case MutationTypename(_, _) => true
  }

  ghost predicate WellFormedOutput(output: Output) {
    match output
    case SingleRow(fields) => WellFormedRow(fields)
    case Response(parts) => forall i :: 0 <= i < |parts| && parts[i].Returning? ==> WellFormedRow(parts[i].fields)
  }

  // ----- statements -----

  datatype Dml =
    | InsertDml(table: Table, columns: seq<(string, string)>, rows: seq<seq<Option<Value>>>)
    | UpdateDml(table: Table, alias: string, sets: seq<SetOp>, where: seq<Cond>)
    | DeleteDml(table: Table, alias: string, where: seq<Cond>)

  predicate Rectangular(dml: Dml) {
    dml.InsertDml? ==> forall i :: 0 <= i < |dml.rows| ==> |dml.rows[i]| == |dml.columns|
  }

  /** Built over the whole RETURNING set, or from its first row. */
  datatype ResultSql = WholeSet(agg: Agg) | FirstOnly(e: Expr)

  datatype Statement =
    | SelectText(s: string)
    | WithDml(cte: string, dml: Dml, check: Option<Cond>, result: ResultSql)

  function PartSql(part: ResponseField, cte: string, n: nat, stringify: bool): (out: Out<(string, Agg)>)
    ensures out.next >= n
  {
    match part
    case AffectedRows(alias) => Out((alias, CountStar), n)
    case ResponseTypename(alias, name) => Out((alias, Plain(TextLit(name))), n)
    case Returning(alias, fields) =>
      var row := RowSql(fields, cte, n, stringify);
      Out((alias, JsonAgg(BuildObject(row.it))), row.next)
  }

  function PartsSql(parts: seq<ResponseField>, cte: string, n: nat, stringify: bool): (out: Out<seq<(string, Agg)>>)
    ensures |out.it| == |parts| && out.next >= n
  {
    if parts == [] then Out([], n)
    else
      var k := |parts| - 1;
      var init := PartsSql(parts[..k], cte, n, stringify);
      var last := PartSql(parts[k], cte, init.next, stringify);
      Out(init.it + [last.it], last.next)
  }

  function OutputSql(output: Output, cte: string, n: nat, stringify: bool): (out: Out<ResultSql>)
    ensures out.next >= n
  {
    match output
    case Response(parts) =>
      var pairs := PartsSql(parts, cte, n, stringify);
      Out(WholeSet(AggObject(pairs.it)), pairs.next)
    case SingleRow(fields) =>
      var row := RowSql(fields, cte, n, stringify);
      Out(FirstOnly(BuildObject(row.it)), row.next)
  }

  /** `mutation_select`: the response is compiled before the check. */
  function MutationSelect(cte: string, dml: Dml, check: Option<BoolExp>, output: Output, n: nat, stringify: bool):
    (out: Out<Statement>)
    ensures out.next >= n
  {
    var result := OutputSql(output, cte, n, stringify);
    if check.None? then Out(WithDml(cte, dml, None, result.it), result.next)
    else
      var cond := BoolSql(check.value, cte, cte, result.next);
      Out(WithDml(cte, dml, Some(cond.it), result.it), cond.next)
  }

  function MutationToSql(root: MutationRoot, stringify: bool): Statement {
    match root
    case MutationTypename(_, name) => SelectText(name)
    case InsertRoot(_, t, columns, rows, check, output) =>
      MutationSelect("ins", InsertDml(t, columns, rows), check, output, 0, stringify).it
    case UpdateRoot(_, t, sets, target, check, output) =>
      var where := FilterSql(target, "_upd_target", 0);
      MutationSelect("upd", UpdateDml(t, "_upd_target", sets, where.it), check, output, where.next, stringify).it
    case DeleteRoot(_, t, target, output) =>
      var where := FilterSql(target, "_del_target", 0);
      MutationSelect("del", DeleteDml(t, "_del_target", where.it), None, output, where.next, stringify).it
  }

  // ----- running a statement -----

  predicate DistinctSets(sets: seq<SetOp>) {
    forall i, j :: 0 <= i < j < |sets| ==> sets[i].column != sets[j].column
  }

  /** Every right-hand side reads the old row. */
  function Assigned(sets: seq<SetOp>, row: Row, eng: Engine, rules: Rules): Row {
    if sets == [] then row
    else
      var n := |sets| - 1;
      var v := LitValue(eng, sets[n].value, sets[n].pgType);
      Assigned(sets[..n], row, eng, rules)[sets[n].column :=
        if sets[n].Set? then v else rules.plus(Get(row, sets[n].column), v)]
  }

  function Updated(rows: seq<Row>, mask: seq<bool>, sets: seq<SetOp>, eng: Engine, rules: Rules): (out: seq<Row>)
    requires |mask| == |rows|
    ensures |out| == |rows|
    ensures forall i :: 0 <= i < |rows| ==> out[i] == if mask[i] then Assigned(sets, rows[i], eng, rules) else rows[i]
  {
    seq(|rows|, i requires 0 <= i < |rows| => if mask[i] then Assigned(sets, rows[i], eng, rules) else rows[i])
  }

  function Others(mask: seq<bool>): (out: seq<bool>)
    ensures |out| == |mask| && forall i :: 0 <= i < |mask| ==> out[i] == !mask[i]
  {
    seq(|mask|, i requires 0 <= i < |mask| => !mask[i])
  }

  /** UPDATE on the rows picked by `mask`: assigning a column twice is an error. */
  function UpdateRows(w: World, t: Table, mask: seq<bool>, sets: seq<SetOp>, rules: Rules): Result<Effect, DbError>
    requires |mask| == |Rows(w.db, t)|
  {
    var rows := Updated(Rows(w.db, t), mask, sets, w.db.engine, rules);
    var w2 := WithRows(w, t, rows);
    if sets == [] || !DistinctSets(sets) then Err(SyntaxError)
    else if rules.valid(w2.db.tables) then Ok(Effect(w2, Keep(rows, mask)))
    else Err(Rejected)
  }

  function DeleteRows(w: World, t: Table, mask: seq<bool>, rules: Rules): Result<Effect, DbError>
    requires |mask| == |Rows(w.db, t)|
  {
    var w2 := WithRows(w, t, Keep(Rows(w.db, t), Others(mask)));
    if rules.valid(w2.db.tables) then Ok(Effect(w2, Keep(Rows(w.db, t), mask))) else Err(Rejected)
  }

  function RunDml(dml: Dml, w: World, rules: Rules): Result<Effect, DbError>
    requires Rectangular(dml)
  {
    match dml
    case InsertDml(t, columns, rows) => InsertInto(w, t, columns, rows, rules)
    case UpdateDml(t, alias, sets, where) =>
      UpdateRows(w, t, WhereMask(Rows(w.db, t), alias, where, map[], w.db), sets, rules)
    case DeleteDml(t, alias, where) =>
      DeleteRows(w, t, WhereMask(Rows(w.db, t), alias, where, map[], w.db), rules)
  }

  /** A value whose computation failed fails the whole statement. */
  predicate Aborts(v: Value) {
    match v
    case Error => true
    case Arr(items) => exists i :: 0 <= i < |items| && Aborts(items[i])
    case Obj(fields) => exists i :: 0 <= i < |fields| && Aborts(fields[i].1)
    case _ => false
  }

  /** `(SELECT count(*) FROM cte WHERE NOT (check)) > 0` */
  predicate CheckFails(check: Option<Cond>, cte: string, rows: seq<Row>, db: Db) {
    check.Some? && |Keep(rows, WhereMask(rows, cte, [CNot(check.value)], map[], db))| > 0
  }

  function EvalResult(result: ResultSql, cte: string, rows: seq<Row>, db: Db): Value {
    match result
    case WholeSet(agg) => EvalAgg(agg, rows, cte, map[], db)
    case FirstOnly(e) => if rows == [] then Null else EvalExpr(e, map[cte := rows[0]], db)
  }

  /** The outer SELECT sees the RETURNING rows and, of every table, the
      contents from before the statement. */
  function Finish(effect: Effect, fails: bool, value: Value): Result<(World, Value), DbError> {
    if fails then Err(CheckViolation)
    else if Aborts(value) then Err(Aborted)
    else Ok((effect.world, value))
  }

  function RunStatement(st: Statement, w: World, rules: Rules): Result<(World, Value), DbError>
    requires st.WithDml? ==> Rectangular(st.dml)
  {
    match st
    case SelectText(s) => Ok((w, Text(s)))
    case WithDml(cte, dml, check, result) =>
      var effect := RunDml(dml, w, rules);
      if effect.Err? then Err(effect.error)
      else
        var rows := effect.value.touched;
        Finish(effect.value, CheckFails(check, cte, rows, w.db), EvalResult(result, cte, rows, w.db))
  }
}
