/** The SQL of a relay connection (`connection_expr`): the fetched edges are
    aggregated into one JSON array, from which the visible page, the cursors and
    the flags are taken by JSON operators. `encode` is the cursor encoding
    (base64 of JSON text). */
module ConnectionSql {
  import opened Values
  import opened Database
  import opened Sql
  import opened SqlGen
  import opened Relay
  import JsonAccess

  type Encoding = Value -> string

  // ----- what is selected -----

  datatype EdgeField = CursorField(alias: string) | NodeField(alias: string) | EdgeTypename(alias: string, name: string)

  datatype ConnectionField =
    | ConnectionTypename(alias: string, name: string)
    | PageInfo(alias: string, infos: seq<(string, string)>)   // (alias, field name)
    | Edges(alias: string, parts: seq<EdgeField>)

  // ----- the statement -----

  /** The array of all fetched edges, or its first `size` elements by ordinality,
      in ascending or descending order. */
  datatype ArrayExpr = RawArray | Trimmed(size: nat, backward: bool)

  datatype InfoExpr =
    | CursorAt(arr: ArrayExpr, last: bool)   // a->0->>'cursor', a->(json_array_length(a)-1)->>'cursor'
    | LongerThan(n: nat)                     // json_array_length(raw) > n
    | Known(b: bool)
    | NullInfo

  datatype EdgeExpr = TakeCursor | TakeNode | EdgeText(s: string)

  datatype PartExpr =
    | TextPart(s: string)
    | InfoPart(infos: seq<(string, InfoExpr)>)
    | EdgesPart(arr: ArrayExpr, edges: seq<(string, EdgeExpr)>)

  /** `parts` over json_agg({cursor, node}) of the rows of a select. */
  datatype Statement = Statement(parts: seq<(string, PartExpr)>, pk: string, node: Expr, rows: Select)

  function PageArray(page: Option<RelayPage>): ArrayExpr {
    if page.None? then RawArray else Trimmed(page.value.size, page.value.backward)
  }

  function MoreSql(page: Option<RelayPage>): InfoExpr {
    LongerThan(if page.Some? then page.value.size else U64 - 1)
  }

  function InfoSql(name: string, page: Option<RelayPage>): InfoExpr {
    if name == "startCursor" then CursorAt(PageArray(page), false)
    else if name == "endCursor" then CursorAt(PageArray(page), true)
    else if name == "hasNextPage" then
      if page.Some? && !page.value.backward then MoreSql(page) else Known(page.Some? && page.value.hasOtherSide)
    else if name == "hasPreviousPage" then
      if page.Some? && page.value.backward then MoreSql(page) else Known(page.Some? && page.value.hasOtherSide)
    else NullInfo
  }

  function EdgeSql(f: EdgeField): (string, EdgeExpr) {
    match f
    case CursorField(alias) => (alias, TakeCursor)
    case NodeField(alias) => (alias, TakeNode)
    case EdgeTypename(alias, name) => (alias, EdgeText(name))
  }

  function EdgeSqls(fields: seq<EdgeField>): seq<(string, EdgeExpr)> {
    seq(|fields|, i requires 0 <= i < |fields| => EdgeSql(fields[i]))
  }

  function InfosSql(fields: seq<(string, string)>, page: Option<RelayPage>): (infos: seq<(string, InfoExpr)>)
    ensures |infos| == |fields| && forall i :: 0 <= i < |fields| ==> infos[i] == (fields[i].0, InfoSql(fields[i].1, page))
  {
    seq(|fields|, i requires 0 <= i < |fields| => (fields[i].0, InfoSql(fields[i].1, page)))
  }

  function PartSql(f: ConnectionField, page: Option<RelayPage>): (string, PartExpr) {
    match f
    case ConnectionTypename(alias, name) => (alias, TextPart(name))
    case PageInfo(alias, fields) => (alias, InfoPart(InfosSql(fields, page)))
    case Edges(alias, fields) => (alias, EdgesPart(PageArray(page), EdgeSqls(fields)))
  }

  function ConnectionToSql(c: Connection, fields: seq<ConnectionField>, outer: OuterRef, n: nat, stringify: bool): (out: Out<Statement>)
    ensures out.next >= n
  {
    var alias := AliasName(n);
    var row := RowSql(c.query.fields, alias, n + 1, stringify);
    var tail := TailSql(EdgeQuery(c), alias, outer, Star, row.next);
    var parts := seq(|fields|, i requires 0 <= i < |fields| => PartSql(fields[i], c.page));
    // one more alias names the array
    Out(Statement(parts, c.pk, BuildObject(row.it), tail.it), tail.next + 1)
  }

  // ----- how it runs -----

  function CursorText(pk: string, row: Row, encode: Encoding): Value {
    Text(encode(KeyCursor(pk, Get(row, pk))))
  }

  function Edge(cursor: Value, node: Value): Value {
    Obj([("cursor", cursor), ("node", node)])
  }

  function RawEdges(st: Statement, env: Env, db: Db, encode: Encoding): (raw: seq<Value>)
    ensures
      var rows := Surviving(st.rows, env, db);
      |raw| == |rows| && forall i :: 0 <= i < |rows| ==>
        raw[i] == Edge(CursorText(st.pk, rows[i], encode), EvalExpr(st.node, env[st.rows.from.alias := rows[i]], db))
  {
    var rows := Surviving(st.rows, env, db);
    seq(|rows|, i requires 0 <= i < |rows| =>
      Edge(CursorText(st.pk, rows[i], encode), EvalExpr(st.node, env[st.rows.from.alias := rows[i]], db)))
  }

  /** json_array_elements .. WITH ORDINALITY AS t(e, i) WHERE t.i <= size ORDER BY t.i */
  function Elements(arr: ArrayExpr, raw: seq<Value>): seq<Value> {
    match arr
    case RawArray => raw
    case Trimmed(size, backward) =>
      var kept := Keep(raw, seq(|raw|, i requires 0 <= i < |raw| => i + 1 <= size));
      if backward then Reverse(kept) else kept
  }

  function FieldOf(v: Value, key: string): Value {
    if !v.Obj? then Null
    else
      var f := JsonAccess.Lookup(v.fields, key);
      if f.None? then Null else f.value
  }

  function EvalInfo(e: InfoExpr, raw: seq<Value>): Value {
    match e
    case CursorAt(arr, last) =>
      var es := Elements(arr, raw);
      if es == [] then Null else FieldOf(es[if last then |es| - 1 else 0], "cursor")
    case LongerThan(n) => Bool(|raw| > n)
    case Known(b) => Bool(b)
    case NullInfo => Null
  }

  function EvalEdge(e: EdgeExpr, edge: Value): Value {
    match e
    case TakeCursor => FieldOf(edge, "cursor")
    case TakeNode => FieldOf(edge, "node")
    case EdgeText(s) => Text(s)
  }

  function EdgeObject(edges: seq<(string, EdgeExpr)>, edge: Value): Value {
    Obj(seq(|edges|, k requires 0 <= k < |edges| => (edges[k].0, EvalEdge(edges[k].1, edge))))
  }

  function EdgeObjects(edges: seq<(string, EdgeExpr)>, es: seq<Value>): (vs: seq<Value>)
    ensures |vs| == |es| && forall i :: 0 <= i < |es| ==> vs[i] == EdgeObject(edges, es[i])
  {
    seq(|es|, i requires 0 <= i < |es| => EdgeObject(edges, es[i]))
  }

  function EvalInfos(infos: seq<(string, InfoExpr)>, raw: seq<Value>): (kvs: seq<(string, Value)>)
    ensures |kvs| == |infos| && forall k :: 0 <= k < |infos| ==> kvs[k] == (infos[k].0, EvalInfo(infos[k].1, raw))
  {
    seq(|infos|, k requires 0 <= k < |infos| => (infos[k].0, EvalInfo(infos[k].1, raw)))
  }

  function EvalPart(p: PartExpr, raw: seq<Value>): Value {
    match p
    case TextPart(s) => Text(s)
    case InfoPart(infos) => Obj(EvalInfos(infos, raw))
    case EdgesPart(arr, edges) => Arr(EdgeObjects(edges, Elements(arr, raw)))
  }

  function EvalStatement(st: Statement, env: Env, db: Db, encode: Encoding): Value {
    var raw := RawEdges(st, env, db, encode);
    Obj(seq(|st.parts|, i requires 0 <= i < |st.parts| => (st.parts[i].0, EvalPart(st.parts[i].1, raw))))
  }
}
