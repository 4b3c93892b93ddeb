/** The planner's output language (crates/ir): a query with permissions already
    woven in and no reference to SQL. */
module Ir {
  import opened Values
  import opened Database

  /** (local column, remote column) pairs. */
  type Join = seq<(string, string)>

  datatype RowArg = EnclosingRow | SessionJson(json: string) | Given(value: Value, pgType: string)

  datatype FnArg = FnArg(name: Option<string>, value: Value, pgType: string)

  datatype CompareOp =
    | Bin(op: BinOp, v: Value)                      // literal read at the column's type
    | BinAs(op: BinOp, v: Value, ty: string)        // jsonb / PostGIS operators fix the type
    | In(vs: seq<Value>)
    | Nin(vs: seq<Value>)
    | IsNull(yes: bool)
    | Column(op: BinOp, column: string, fromRoot: bool)
    | ColumnRel(op: BinOp, table: Table, join: Join, column: string)

  datatype BoolExp =
    | And(exps: seq<BoolExp>)
    | Or(exps: seq<BoolExp>)
    | Not(exp: BoolExp)
    | Compare(column: string, pgType: string, op: CompareOp)
    | Relationship(table: Table, join: Join, filter: BoolExp)
    | ComputedCompare(fn: FnName, args: seq<RowArg>, pgType: string, op: CompareOp)
    | RowFunctionExists(fn: FnName, args: seq<RowArg>, filter: BoolExp)
    | Exists(table: Table, filter: BoolExp)

  datatype FromSource =
    | Scan(table: Table)
    | Function(fn: FnName, fnArgs: seq<FnArg>)
    | RowFunction(fn: FnName, args: seq<RowArg>)

  datatype OrderTarget =
    | ByColumn(column: string)
    | ByRelated(table: Table, join: Join, column: string, filter: Option<BoolExp>)
    | ByAggregate(table: Table, join: Join, aggFn: string, over: Option<string>, filter: Option<BoolExp>)

  datatype OrderBy = OrderBy(target: OrderTarget, spec: SortSpec)

  datatype AggregateColumn = AggregateColumn(alias: string, column: string, guard: Option<BoolExp>)

  datatype AggregateOp =
    | Count(distinct: bool, columns: seq<string>)
    | ColumnOp(aggFn: string, over: seq<AggregateColumn>)

  datatype AggregateField = AggregateField(alias: string, op: AggregateOp)

  datatype FieldValue =
    | ColumnField(column: string, pgType: string)
    | ColumnGuarded(column: string, pgType: string, guard: BoolExp)
    | Typename(name: string)
    | Related(query: SelectQuery, join: Join)       // object and array relationships
    | Aggregate(aggs: seq<AggregateField>)
    | Nodes(fields: seq<OutputField>)
    | RemoteJoin
    | ComputedScalar(fn: FnName, args: seq<RowArg>, cellGuard: Option<BoolExp>)

  datatype OutputField = OutputField(alias: string, value: FieldValue)

  datatype SelectQuery = SelectQuery(
    source: FromSource,
    fields: seq<OutputField>,
    filter: Option<BoolExp>,
    orderBy: seq<OrderBy>,
    limit: Option<nat>,
    nodesLimit: Option<nat>,
    offset: Option<nat>,
    single: bool)

  datatype RootField = SelectRoot(alias: string, query: SelectQuery) | TypenameRoot(alias: string, name: string)

  /** `select_expr` switches to the aggregate form on these. */
  predicate IsAggregate(fields: seq<OutputField>) {
    exists i :: 0 <= i < |fields| && (fields[i].value.Aggregate? || fields[i].value.Nodes?)
  }

  /** Output cast of a column, as `column_output` chooses it. */
  function OutputRendering(pgType: string, stringify: bool): Option<Rendering> {
    if IsGeoType(pgType) then Some(AsGeoJson)
    else if (pgType == "int8" || pgType == "numeric") && stringify then Some(AsText)
    else None
  }

  function Specs(orderBy: seq<OrderBy>): (specs: seq<SortSpec>)
    ensures |specs| == |orderBy|
  {
    seq(|orderBy|, i requires 0 <= i < |orderBy| => orderBy[i].spec)
  }
}
