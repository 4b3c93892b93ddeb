/** The connection statement returns what the paging theorems are about: the rows
    shown, their cursors and the flags. */
module ConnectionCorrect {
  import opened Values
  import opened Database
  import opened Sql
  import opened SqlGen
  import opened PredicateCorrect
  import opened Meaning
  import opened Relay
  import opened ConnectionSql
  import JsonAccess
  import Paging
  import SelectCorrect

  // ----- what a connection means -----

  ghost function EdgeValue(f: EdgeField, c: Connection, row: Row, db: Db, stringify: bool, encode: Encoding): (string, Value) {
    match f
    case CursorField(alias) => (alias, CursorText(c.pk, row, encode))
    case NodeField(alias) => (alias, RowJson(c.query.fields, row, db, stringify))
    case EdgeTypename(alias, name) => (alias, Text(name))
  }

  /** One page: the fetched rows, of which those shown make the edges. */
  ghost function InfoValue(name: string, c: Connection, rows: seq<Row>, encode: Encoding): Value {
    var shown := Shown(c.page, rows);
    if name == "startCursor" then CursorOfOne(c, shown, false, encode)
    else if name == "endCursor" then CursorOfOne(c, shown, true, encode)
    else if name == "hasNextPage" then Bool(HasNextPage(c.page, rows))
    else if name == "hasPreviousPage" then Bool(HasPreviousPage(c.page, rows))
    else Null
  }

  function CursorOfOne(c: Connection, shown: seq<Row>, last: bool, encode: Encoding): Value {
    if shown == [] then Null else CursorText(c.pk, shown[if last then |shown| - 1 else 0], encode)
  }

  ghost function EdgeObjectValue(fields: seq<EdgeField>, c: Connection, row: Row, db: Db, stringify: bool, encode: Encoding): Value {
    Obj(seq(|fields|, k requires 0 <= k < |fields| => EdgeValue(fields[k], c, row, db, stringify, encode)))
  }

  ghost function EdgeObjectValues(fields: seq<EdgeField>, c: Connection, shown: seq<Row>, db: Db, stringify: bool, encode: Encoding):
    (vs: seq<Value>)
    ensures |vs| == |shown| && forall i :: 0 <= i < |shown| ==> vs[i] == EdgeObjectValue(fields, c, shown[i], db, stringify, encode)
  {
    seq(|shown|, i requires 0 <= i < |shown| => EdgeObjectValue(fields, c, shown[i], db, stringify, encode))
  }

  ghost function InfoValues(fields: seq<(string, string)>, c: Connection, rows: seq<Row>, encode: Encoding): (kvs: seq<(string, Value)>)
    ensures |kvs| == |fields| && forall k :: 0 <= k < |fields| ==> kvs[k] == (fields[k].0, InfoValue(fields[k].1, c, rows, encode))
  {
    seq(|fields|, k requires 0 <= k < |fields| => (fields[k].0, InfoValue(fields[k].1, c, rows, encode)))
  }

  ghost function PartValue(f: ConnectionField, c: Connection, rows: seq<Row>, db: Db, stringify: bool, encode: Encoding): (string, Value) {
    match f
    case ConnectionTypename(alias, name) => (alias, Text(name))
    case PageInfo(alias, fields) => (alias, Obj(InfoValues(fields, c, rows, encode)))
    case Edges(alias, fields) =>
      (alias, Arr(EdgeObjectValues(fields, c, Shown(c.page, rows), db, stringify, encode)))
  }

  ghost function ConnectionJson(c: Connection, fields: seq<ConnectionField>, outer: Outer, db: Db, stringify: bool, encode: Encoding): Value {
    var rows := SelectRows(EdgeQuery(c), outer, db);
    Obj(seq(|fields|, i requires 0 <= i < |fields| => PartValue(fields[i], c, rows, db, stringify, encode)))
  }

  // ----- edges -----

  ghost function EdgeOf(c: Connection, row: Row, db: Db, stringify: bool, encode: Encoding): Value {
    Edge(CursorText(c.pk, row, encode), RowJson(c.query.fields, row, db, stringify))
  }

  ghost function EdgesOf(c: Connection, rows: seq<Row>, db: Db, stringify: bool, encode: Encoding): (es: seq<Value>)
    ensures |es| == |rows| && forall i :: 0 <= i < |rows| ==> es[i] == EdgeOf(c, rows[i], db, stringify, encode)
  {
    seq(|rows|, i requires 0 <= i < |rows| => EdgeOf(c, rows[i], db, stringify, encode))
  }

  lemma EdgeFields(cursor: Value, node: Value)
    ensures FieldOf(Edge(cursor, node), "cursor") == cursor && FieldOf(Edge(cursor, node), "node") == node
  {
    var fields := Edge(cursor, node).fields;
    assert fields[0] == ("cursor", cursor) && fields[1..] == [("node", node)];
    assert JsonAccess.Lookup(fields, "cursor") == Some(cursor);
    assert JsonAccess.Lookup(fields[1..], "node") == Some(node);
    assert JsonAccess.Lookup(fields, "node") == JsonAccess.Lookup(fields[1..], "node");
  }

  lemma {:induction false} KeepPrefix<T>(xs: seq<T>, mask: seq<bool>, size: nat)
    requires |mask| == |xs| && forall i :: 0 <= i < |xs| ==> mask[i] == (i + 1 <= size)
    ensures Keep(xs, mask) == if size <= |xs| then xs[..size] else xs
  {
    if xs != [] {
      var n := |xs| - 1;
      KeepPrefix(xs[..n], mask[..n], size);
      assert xs == xs[..n] + [xs[n]];
      if size <= n {
        assert xs[..n][..size] == xs[..size];
      }
    }
  }

  /** The array operators take the page that is shown. */
  lemma ElementsAreShown(page: Option<RelayPage>, raw: seq<Value>)
    ensures Elements(PageArray(page), raw) == Shown(page, raw)
  {
    if page.Some? {
      KeepPrefix(raw, seq(|raw|, i requires 0 <= i < |raw| => i + 1 <= page.value.size), page.value.size);
    }
  }

  lemma ShownIndex<T>(page: Option<RelayPage>, xs: seq<T>, i: nat) returns (k: nat)
    requires i < |Shown(page, xs)|
    ensures k < |xs| && Shown(page, xs)[i] == xs[k] && k == ShownAt(page, |xs|, i)
  {
    k := ShownAt(page, |xs|, i);
  }

  /** Which fetched row is the i-th shown. */
  function ShownAt(page: Option<RelayPage>, n: nat, i: nat): nat {
    if page.None? || !page.value.backward then i
    else
      var cut := if page.value.size <= n then page.value.size else n;
      if i < cut then cut - 1 - i else 0
  }

  lemma ShownLength<T, S>(page: Option<RelayPage>, xs: seq<T>, ys: seq<S>)
    requires |xs| == |ys|
    ensures |Shown(page, xs)| == |Shown(page, ys)|
  {
  }

  /** The visible page of the edges is the edges of the visible rows. */
  lemma PageElements(c: Connection, rows: seq<Row>, raw: seq<Value>, db: Db, stringify: bool, encode: Encoding)
    requires raw == EdgesOf(c, rows, db, stringify, encode)
    ensures Elements(PageArray(c.page), raw) == EdgesOf(c, Shown(c.page, rows), db, stringify, encode)
  {
    ElementsAreShown(c.page, raw);
    ShownLength(c.page, rows, raw);
    var es := EdgesOf(c, Shown(c.page, rows), db, stringify, encode);
    forall i | 0 <= i < |es| ensures Shown(c.page, raw)[i] == es[i] {
      var k := ShownIndex(c.page, raw, i);
      var k2 := ShownIndex(c.page, rows, i);
    }
  }

  // ----- parts -----

  lemma CursorCorrect(c: Connection, rows: seq<Row>, raw: seq<Value>, last: bool, db: Db, stringify: bool, encode: Encoding)
    requires raw == EdgesOf(c, rows, db, stringify, encode)
    ensures EvalInfo(CursorAt(PageArray(c.page), last), raw) == CursorOfOne(c, Shown(c.page, rows), last, encode)
  {
    PageElements(c, rows, raw, db, stringify, encode);
    var shown := Shown(c.page, rows);
    if shown != [] {
      var row := shown[if last then |shown| - 1 else 0];
      EdgeFields(CursorText(c.pk, row, encode), RowJson(c.query.fields, row, db, stringify));
    }
  }

  lemma {:induction false} FlagsCorrect(c: Connection, rows: seq<Row>, raw: seq<Value>)
    requires |raw| == |rows|
    ensures EvalInfo(InfoSql("hasNextPage", c.page), raw) == Bool(HasNextPage(c.page, rows))
    ensures EvalInfo(InfoSql("hasPreviousPage", c.page), raw) == Bool(HasPreviousPage(c.page, rows))
  {
  }

  lemma {:induction false} InfoCorrect(name: string, c: Connection, rows: seq<Row>, raw: seq<Value>, db: Db, stringify: bool, encode: Encoding)
    requires raw == EdgesOf(c, rows, db, stringify, encode)
    ensures EvalInfo(InfoSql(name, c.page), raw) == InfoValue(name, c, rows, encode)
  {
    if name == "startCursor" {
      CursorCorrect(c, rows, raw, false, db, stringify, encode);
    } else if name == "endCursor" {
      CursorCorrect(c, rows, raw, true, db, stringify, encode);
    } else {
      FlagsCorrect(c, rows, raw);
    }
  }

  lemma EdgeObjectCorrect(fields: seq<EdgeField>, c: Connection, row: Row, db: Db, stringify: bool, encode: Encoding)
    ensures EdgeObject(EdgeSqls(fields), EdgeOf(c, row, db, stringify, encode)) ==
            EdgeObjectValue(fields, c, row, db, stringify, encode)
  {
    EdgeFields(CursorText(c.pk, row, encode), RowJson(c.query.fields, row, db, stringify));
  }

  lemma PartCorrect(f: ConnectionField, c: Connection, rows: seq<Row>, raw: seq<Value>, db: Db, stringify: bool, encode: Encoding)
    requires raw == EdgesOf(c, rows, db, stringify, encode)
    ensures
      var part := PartSql(f, c.page);
      (part.0, EvalPart(part.1, raw)) == PartValue(f, c, rows, db, stringify, encode)
  {
    match f
    case ConnectionTypename(_, _) =>
    case PageInfo(_, infos) =>
      forall k | 0 <= k < |infos| ensures EvalInfo(InfoSql(infos[k].1, c.page), raw) == InfoValue(infos[k].1, c, rows, encode) {
        InfoCorrect(infos[k].1, c, rows, raw, db, stringify, encode);
      }
      assert EvalInfos(InfosSql(infos, c.page), raw) == InfoValues(infos, c, rows, encode);
    case Edges(_, parts) =>
      PageElements(c, rows, raw, db, stringify, encode);
      var shown := Shown(c.page, rows);
      var es := EdgesOf(c, shown, db, stringify, encode);
      forall i | 0 <= i < |shown|
        ensures EdgeObject(EdgeSqls(parts), es[i]) == EdgeObjectValue(parts, c, shown[i], db, stringify, encode)
      {
        EdgeObjectCorrect(parts, c, shown[i], db, stringify, encode);
      }
      assert EdgeObjects(EdgeSqls(parts), es) == EdgeObjectValues(parts, c, shown, db, stringify, encode);
  }

  // ----- the statement -----

  /** The fetched rows, each as an edge. */
  lemma FetchedEdges(c: Connection, fields: seq<ConnectionField>, ref: OuterRef, outer: Outer, n: nat, env: Env, db: Db, stringify: bool,
    encode: Encoding, st: Statement, rows: seq<Row>)
    requires SelectCorrect.Denotes(ref, outer, env, n) && WellFormedRow(c.query.fields) && (c.query.source.RowFunction? ==> ref.Ref?)
    requires st == ConnectionToSql(c, fields, ref, n, stringify).it && rows == SelectRows(EdgeQuery(c), outer, db)
    ensures RawEdges(st, env, db, encode) == EdgesOf(c, rows, db, stringify, encode)
  {
    var alias := AliasName(n);
    var row := RowSql(c.query.fields, alias, n + 1, stringify);
    NumberedAliasIsOlder(n);
    SelectCorrect.TailRows(EdgeQuery(c), ref, outer, Star, n, row.next, env, db, st.rows, rows);
    forall i | 0 <= i < |rows|
      ensures EvalExpr(st.node, env[alias := rows[i]], db) == RowJson(c.query.fields, rows[i], db, stringify)
    {
      SelectCorrect.RowCorrect(c.query.fields, alias, n + 1, env[alias := rows[i]], db, stringify);
    }
  }

  /** Main result: the statement's JSON is the page that the paging theorems
      describe. */
  lemma ConnectionIsCorrect(c: Connection, fields: seq<ConnectionField>, ref: OuterRef, outer: Outer, n: nat, env: Env, db: Db,
    stringify: bool, encode: Encoding)
    requires SelectCorrect.Denotes(ref, outer, env, n) && WellFormedRow(c.query.fields) && (c.query.source.RowFunction? ==> ref.Ref?)
    ensures EvalStatement(ConnectionToSql(c, fields, ref, n, stringify).it, env, db, encode) ==
            ConnectionJson(c, fields, outer, db, stringify, encode)
  {
    var st := ConnectionToSql(c, fields, ref, n, stringify).it;
    var rows := SelectRows(EdgeQuery(c), outer, db);
    FetchedEdges(c, fields, ref, outer, n, env, db, stringify, encode, st, rows);
    StatementValue(c, fields, st, rows, env, db, stringify, encode, RawEdges(st, env, db, encode));
  }

  lemma StatementValue(c: Connection, fields: seq<ConnectionField>, st: Statement, rows: seq<Row>, env: Env, db: Db, stringify: bool,
    encode: Encoding, raw: seq<Value>)
    requires raw == RawEdges(st, env, db, encode) == EdgesOf(c, rows, db, stringify, encode)
    requires |st.parts| == |fields| && forall i :: 0 <= i < |fields| ==> st.parts[i] == PartSql(fields[i], c.page)
    ensures EvalStatement(st, env, db, encode) ==
            Obj(seq(|fields|, i requires 0 <= i < |fields| => PartValue(fields[i], c, rows, db, stringify, encode)))
  {
    forall i | 0 <= i < |fields|
      ensures (st.parts[i].0, EvalPart(st.parts[i].1, raw)) == PartValue(fields[i], c, rows, db, stringify, encode)
    {
      PartCorrect(fields[i], c, rows, raw, db, stringify, encode);
    }
  }

  // ----- following a cursor -----

  /** The cursor of a page leads to the page after it: decoded, it is the bound of
      the paging run. */
  lemma EndCursorLeadsOn(src: Source, db: Db, size: nat, b: Paging.Bound, decode: string -> Option<Value>, encode: Encoding)
    requires forall v :: decode(encode(v)) == Some(v)
    ensures
      var c := BuildConnection(src, ArgsOf(src, size, false, b));
      var rows := Fetched(c, db);
      var shown := Reply(src, db, size, false, b).rows;
      var cursor := InfoValue("endCursor", c, rows, encode);
      if shown == [] then cursor == Null
      else cursor.Text? && PageArgs(Some(size), None, decode(cursor.s), None) ==
           ArgsOf(src, size, false, Paging.Above(Get(shown[|shown| - 1], src.pk)))
  {
  }

  lemma StartCursorLeadsBack(src: Source, db: Db, size: nat, b: Paging.Bound, decode: string -> Option<Value>, encode: Encoding)
    requires forall v :: decode(encode(v)) == Some(v)
    ensures
      var c := BuildConnection(src, ArgsOf(src, size, true, b));
      var rows := Fetched(c, db);
      var shown := Reply(src, db, size, true, b).rows;
      var cursor := InfoValue("startCursor", c, rows, encode);
      if shown == [] then cursor == Null
      else cursor.Text? && PageArgs(None, Some(size), None, decode(cursor.s)) ==
           ArgsOf(src, size, true, Paging.Below(Get(shown[0], src.pk)))
  {
  }
}
