/** How the planner reads the smallest filters: one key, one operator. */
module FilterJson {
  import opened Values
  import opened Database
  import opened Ir
  import opened Planner

  /** `{key: v}` is its one conjunct. */
  lemma SingleConjunct(key: string, v: Value, ctx: TableCtx, md: Metadata, s: Session, perm: bool)
    ensures ParseBool(Obj([(key, v)]), ctx, md, s, perm) == Conjunct((key, v), ctx, md, s, perm)
  {
    var fields := [(key, v)];
    assert fields[..0] == [];
    assert Conjuncts(fields[..0], ctx, md, s, perm) == Ok([]);
    var c := Conjunct(fields[0], ctx, md, s, perm);
    assert c.Ok? ==> [] + [c.value] == [c.value];
  }

  function CeqPath(first: string, second: string): Value {
    Obj([("_ceq", Arr([Text(first), Text(second)]))])
  }

  /** One operator in an operator object. */
  lemma SingleOp(name: string, v: Value, ctx: TableCtx, md: Metadata, s: Session, perm: bool, op: CompareOp)
    requires ParseOp(name, v, ctx, md, s, perm) == Ok(op)
    ensures ParseOps(Obj([(name, v)]), ctx, md, s, perm) == Ok([op])
  {
    var ops := [(name, v)];
    assert ops[..0] == [];
    assert ParseOpList(ops[..0], ctx, md, s, perm) == Ok([]);
    assert [] + [op] == [op];
  }

  lemma CeqParses(first: string, second: string, ctx: TableCtx, md: Metadata, s: Session, perm: bool)
    requires ColumnCompare(Eq, Arr([Text(first), Text(second)]), ctx).Ok?
    ensures ParseOps(CeqPath(first, second), ctx, md, s, perm) ==
            Ok([ColumnCompare(Eq, Arr([Text(first), Text(second)]), ctx).value])
  {
    assert OpName("_ceq") == "_ceq" && ScalarOp("_ceq").None? && ColumnOperator("_ceq") == Some(Eq);
    SingleOp("_ceq", Arr([Text(first), Text(second)]), ctx, md, s, perm, ColumnCompare(Eq, Arr([Text(first), Text(second)]), ctx).value);
  }

  predicate PlainKey(key: string) {
    var k := Logical(key);
    k == key && k != "_and" && k != "_or" && k != "_not" && k != "_exists"
  }

  type OpRelation = (CompareOp, string, Value) -> bool

  /** What relates every planned operator to its JSON relates the lists. */
  lemma {:induction false} OpsRelated(ops: seq<(string, Value)>, ctx: TableCtx, md: Metadata, s: Session, perm: bool, rel: OpRelation)
    requires forall raw, v :: ParseOp(raw, v, ctx, md, s, perm).Ok? ==> rel(ParseOp(raw, v, ctx, md, s, perm).value, raw, v)
    requires ParseOpList(ops, ctx, md, s, perm).Ok?
    ensures
      var parsed := ParseOpList(ops, ctx, md, s, perm).value;
      |parsed| == |ops| && forall i :: 0 <= i < |ops| ==> rel(parsed[i], ops[i].0, ops[i].1)
  {
    if ops != [] {
      OpsRelated(ops[..|ops| - 1], ctx, md, s, perm, rel);
    }
  }
}
