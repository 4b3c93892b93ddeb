/** The abstract Postgres under the generated SQL: tables are sequences of
    rows, and everything Postgres decides by itself (type casts, value order,
    LIKE and friends, SQL functions, aggregate functions) is an arbitrary
    function in `Engine`, so every theorem holds for all of them. */
module Database {
  import opened Values
  import JsonText

  type Row = map<string, Value>

  datatype Table = Table(schema: string, name: string)

  datatype FnName = FnName(schema: string, name: string)

  datatype ArgVal = RowVal(row: Row) | ScalarVal(v: Value) | NamedVal(name: string, v: Value)

  /** Output casts: `ST_AsGeoJSON(..)::json` and `(..)::text`. */
  datatype Rendering = AsGeoJson | AsText

  datatype BinOp = Eq | Neq | Gt | Lt | Gte | Lte | Named(symbol: string)

  datatype Engine = Engine(
    less: (Value, Value) -> bool,
    cast: (Value, string) -> Value,
    named: (string, Value, Value) -> Tri,
    rowFn: (FnName, seq<ArgVal>) -> seq<Row>,
    scalarFn: (FnName, seq<ArgVal>) -> Value,
    aggregate: (string, seq<Value>) -> Value,
    render: (Rendering, Value) -> Value)

  datatype Db = Db(tables: map<Table, seq<Row>>, engine: Engine)

  function Rows(db: Db, t: Table): seq<Row> {
    if t in db.tables then db.tables[t] else []
  }

  function Get(row: Row, column: string): Value {
    if column in row then row[column] else Null
  }

  predicate IsGeoType(pgType: string) {
    pgType == "geometry" || pgType == "geography"
  }

  /** A literal that is written as the text of its JSON. A GeoJSON object for a
      geometry column goes through PostGIS instead. */
  predicate AsJsonText(v: Value, pgType: string) {
    v.Arr? || (v.Obj? && !IsGeoType(pgType))
  }

  /** `scalar_sql`: NULL and booleans are rendered bare, the rest is cast, arrays
      and objects from their JSON text. */
  function LitValue(eng: Engine, v: Value, pgType: string): Value {
    if v.Null? || v.Bool? then v
    else if AsJsonText(v, pgType) then eng.cast(Text(JsonText.Serialized(v)), pgType)
    else eng.cast(v, pgType)
  }

  /** A binary operator is strict: a NULL operand gives UNKNOWN. */
  function EvalBin(eng: Engine, op: BinOp, l: Value, r: Value): Tri {
    if l.Null? || r.Null? then Unknown
    else match op
      case Eq => Truth(l == r)
      case Neq => Truth(l != r)
      case Gt => Truth(eng.less(r, l))
      case Lt => Truth(eng.less(l, r))
      case Gte => Truth(eng.less(r, l) || l == r)
      case Lte => Truth(eng.less(l, r) || l == r)
      case Named(symbol) => eng.named(symbol, l, r)
  }

  function Render(eng: Engine, how: Option<Rendering>, v: Value): Value {
    if how.None? || v.Null? then v else eng.render(how.value, v)
  }

  /** COUNT over one expression skips NULLs; over a row constructor it counts
      every row. */
  function CountTuples(distinct: bool, tuples: seq<seq<Value>>): nat {
    var counted := if |tuples| > 0 && |tuples[0]| == 1 then NonNull(tuples) else tuples;
    if distinct then |(set t | t in counted)| else |counted|
  }

  function NonNull(tuples: seq<seq<Value>>): seq<seq<Value>> {
    if tuples == [] then []
    else
      var rest := NonNull(tuples[..|tuples| - 1]);
      var t := tuples[|tuples| - 1];
      if |t| == 1 && t[0].Null? then rest else rest + [t]
  }

  /** The rows whose mask bit is set, in order. */
  function Keep<T>(rows: seq<T>, mask: seq<bool>): (kept: seq<T>)
    requires |rows| == |mask|
    ensures |kept| <= |rows|
    ensures forall r :: r in kept ==> r in rows
  {
    if rows == [] then []
    else
      var n := |rows| - 1;
      var rest := Keep(rows[..n], mask[..n]);
      if mask[n] then rest + [rows[n]] else rest
  }

  /** Nothing selected is lost, nothing unselected is kept. */
  lemma {:induction false} KeepMember<T>(rows: seq<T>, mask: seq<bool>, r: T)
    requires |rows| == |mask|
    ensures r in Keep(rows, mask) <==> exists i :: 0 <= i < |rows| && rows[i] == r && mask[i]
  {
    if rows != [] {
      var n := |rows| - 1;
      var init, bits := rows[..n], mask[..n];
      KeepMember(init, bits, r);
      assert forall i :: 0 <= i < n ==> init[i] == rows[i] && bits[i] == mask[i];
      if r in Keep(init, bits) {
        var i :| 0 <= i < n && init[i] == r && bits[i];
        assert rows[i] == r && mask[i];
      }
    }
  }

  lemma {:induction false} KeepAll<T>(rows: seq<T>, mask: seq<bool>)
    requires |rows| == |mask| && forall i :: 0 <= i < |mask| ==> mask[i]
    ensures Keep(rows, mask) == rows
  {
    if rows != [] {
      var n := |rows| - 1;
      KeepAll(rows[..n], mask[..n]);
      assert rows[..n] + [rows[n]] == rows;
    }
  }

  datatype Direction = Asc | Desc
  datatype Nulls = First | Last
  datatype SortSpec = SortSpec(direction: Direction, nulls: Nulls)
  datatype Keyed = Keyed(keys: seq<Value>, row: Row)

  /** Strictly earlier on one sort item. */
  function KeyBefore(eng: Engine, spec: SortSpec, x: Value, y: Value): bool {
    if x == y then false
    else if x.Null? then spec.nulls.First?
    else if y.Null? then spec.nulls.Last?
    else if spec.direction.Asc? then eng.less(x, y)
    else eng.less(y, x)
  }

  /** Strictly earlier on the sort items from index `k` on: the first item on
      which the keys differ decides. */
  function Before(eng: Engine, specs: seq<SortSpec>, a: seq<Value>, b: seq<Value>, k: nat := 0): bool
    requires |a| == |b| == |specs| && k <= |specs|
    decreases |specs| - k
  {
    if k == |specs| then false
    else if a[k] == b[k] then Before(eng, specs, a, b, k + 1)
    else KeyBefore(eng, specs[k], a[k], b[k])
  }

  predicate Uniform(xs: seq<Keyed>, width: nat) {
    forall i :: 0 <= i < |xs| ==> |xs[i].keys| == width
  }

  function Insert(eng: Engine, specs: seq<SortSpec>, x: Keyed, xs: seq<Keyed>): (ys: seq<Keyed>)
    requires |x.keys| == |specs| && Uniform(xs, |specs|)
    ensures Uniform(ys, |specs|) && |ys| == |xs| + 1
  {
    if xs == [] then [x]
    else
      var n := |xs| - 1;
      if Before(eng, specs, x.keys, xs[n].keys) then Insert(eng, specs, x, xs[..n]) + [xs[n]]
      else xs + [x]
  }

  /** ORDER BY as a stable sort over the scan order. */
  function Sort(eng: Engine, specs: seq<SortSpec>, xs: seq<Keyed>): (ys: seq<Keyed>)
    requires Uniform(xs, |specs|)
    ensures Uniform(ys, |specs|) && |ys| == |xs|
  {
    if xs == [] then []
    else
      var n := |xs| - 1;
      Insert(eng, specs, xs[n], Sort(eng, specs, xs[..n]))
  }

  lemma {:induction false} SortWithoutKeys(eng: Engine, xs: seq<Keyed>)
    requires Uniform(xs, 0)
    ensures Sort(eng, [], xs) == xs
  {
    if xs != [] {
      var n := |xs| - 1;
      SortWithoutKeys(eng, xs[..n]);
      assert xs[..n] + [xs[n]] == xs;
    }
  }

  function SortRows(eng: Engine, specs: seq<SortSpec>, rows: seq<Row>, keys: seq<seq<Value>>): (out: seq<Row>)
    requires |keys| == |rows|
    requires forall i :: 0 <= i < |keys| ==> |keys[i]| == |specs|
    ensures |out| == |rows|
  {
    var keyed := seq(|rows|, i requires 0 <= i < |rows| => Keyed(keys[i], rows[i]));
    var sorted := Sort(eng, specs, keyed);
    seq(|rows|, i requires 0 <= i < |rows| => sorted[i].row)
  }

  lemma {:induction false} InsertPermutes(eng: Engine, specs: seq<SortSpec>, x: Keyed, xs: seq<Keyed>)
    requires |x.keys| == |specs| && Uniform(xs, |specs|)
    ensures multiset(Insert(eng, specs, x, xs)) == multiset(xs) + multiset{x}
  {
    if xs != [] {
      var n := |xs| - 1;
      assert xs == xs[..n] + [xs[n]];
      InsertPermutes(eng, specs, x, xs[..n]);
    }
  }

  lemma {:induction false} SortPermutes(eng: Engine, specs: seq<SortSpec>, xs: seq<Keyed>)
    requires Uniform(xs, |specs|)
    ensures multiset(Sort(eng, specs, xs)) == multiset(xs)
  {
    if xs != [] {
      var n := |xs| - 1;
      assert xs == xs[..n] + [xs[n]];
      SortPermutes(eng, specs, xs[..n]);
      InsertPermutes(eng, specs, xs[n], Sort(eng, specs, xs[..n]));
    }
  }

  /** Sorting returns only rows it was given. */
  lemma SortedRowsMember(eng: Engine, specs: seq<SortSpec>, rows: seq<Row>, keys: seq<seq<Value>>, r: Row)
    requires |keys| == |rows| && forall i :: 0 <= i < |keys| ==> |keys[i]| == |specs|
    requires r in SortRows(eng, specs, rows, keys)
    ensures r in rows
  {
    var keyed := seq(|rows|, i requires 0 <= i < |rows| => Keyed(keys[i], rows[i]));
    var sorted := Sort(eng, specs, keyed);
    var i :| 0 <= i < |rows| && sorted[i].row == r;
    SortPermutes(eng, specs, keyed);
    assert sorted[i] in multiset(sorted);
    assert sorted[i] in keyed;
  }

  /** No two rows of the table agree on the whole primary key. */
  ghost predicate KeysDistinct(primaryKey: seq<string>, rows: seq<Row>) {
    forall i, j :: 0 <= i < j < |rows| ==> exists c :: c in primaryKey && Get(rows[i], c) != Get(rows[j], c)
  }

  /** `less` is a strict total order on the given non-null keys. */
  ghost predicate TotalOn(eng: Engine, keys: set<Value>) {
    && Null !in keys
    && (forall x :: x in keys ==> !eng.less(x, x))
    && (forall x, y :: x in keys && y in keys && x != y ==> (eng.less(x, y) <==> !eng.less(y, x)))
    && (forall x, y, z :: x in keys && y in keys && z in keys && eng.less(x, y) && eng.less(y, z) ==> eng.less(x, z))
  }

  /** OFFSET, then LIMIT. */
  function Slice<T>(rows: seq<T>, limit: Option<nat>, offset: Option<nat>): seq<T> {
    var skip := if offset.None? then 0 else offset.value;
    var rest := if skip <= |rows| then rows[skip..] else [];
    if limit.Some? && limit.value <= |rest| then rest[..limit.value] else rest
  }

  /** Tightening the limit of a slice takes a prefix of it. */
  lemma SlicePrefix<T>(rows: seq<T>, limit: Option<nat>, cap: nat, offset: Option<nat>)
    ensures
      var tighter := if limit.Some? && limit.value <= cap then limit.value else cap;
      var all := Slice(rows, limit, offset);
      Slice(rows, Some(tighter), offset) == if cap <= |all| then all[..cap] else all
  {
  }
}
