/** The mutation half of the generator: a new counter per root field, advanced
    in place through the target predicate, the response and the check. */
module MutationGenerator {
  import opened Values
  import opened Ir
  import opened Sql
  import opened SqlGen
  import opened MutationSql
  import Generator

  method ResponseParts(ctx: Generator.Ctx, parts: seq<ResponseField>, cte: string) returns (pairs: seq<(string, Agg)>)
    modifies ctx`nextAlias
    ensures Out(pairs, ctx.nextAlias) == PartsSql(parts, cte, old(ctx.nextAlias), ctx.stringify)
  {
    pairs := [];
    for i := 0 to |parts|
      invariant Out(pairs, ctx.nextAlias) == PartsSql(parts[..i], cte, old(ctx.nextAlias), ctx.stringify)
    {
      match parts[i] {
        case AffectedRows(alias) => pairs := pairs + [(alias, CountStar)];
        case ResponseTypename(alias, name) => pairs := pairs + [(alias, Plain(TextLit(name)))];
        case Returning(alias, fields) =>
          var row := ctx.RowObject(fields, cte);
          pairs := pairs + [(alias, JsonAgg(BuildObject(row)))];
      }
      assert parts[..i + 1][..i] == parts[..i];
    }
    assert parts[..|parts|] == parts;
  }

  method ResultExpr(ctx: Generator.Ctx, output: Output, cte: string) returns (result: ResultSql)
    modifies ctx`nextAlias
    ensures Out(result, ctx.nextAlias) == OutputSql(output, cte, old(ctx.nextAlias), ctx.stringify)
  {
    match output {
      case Response(parts) =>
        var pairs := ResponseParts(ctx, parts, cte);
        result := WholeSet(AggObject(pairs));
      case SingleRow(fields) =>
        var row := ctx.RowObject(fields, cte);
        result := FirstOnly(BuildObject(row));
    }
  }

  /** `mutation_select` */
  method SelectFromCte(ctx: Generator.Ctx, cte: string, dml: Dml, check: Option<BoolExp>, output: Output) returns (st: Statement)
    modifies ctx`nextAlias
    ensures Out(st, ctx.nextAlias) == MutationSelect(cte, dml, check, output, old(ctx.nextAlias), ctx.stringify)
  {
    var result := ResultExpr(ctx, output, cte);
    var cond: Option<Cond> := None;
    if check.Some? {
      var c := ctx.BoolExpr(check.value, cte, cte);
      cond := Some(c);
    }
    st := WithDml(cte, dml, cond, result);
  }

  /** The WHERE of an UPDATE or DELETE, if any. */
  method TargetConds(ctx: Generator.Ctx, target: Option<BoolExp>, alias: string) returns (where: seq<Cond>)
    modifies ctx`nextAlias
    ensures Out(where, ctx.nextAlias) == FilterSql(target, alias, old(ctx.nextAlias))
  {
    where := [];
    if target.Some? {
      var c := ctx.BoolExpr(target.value, alias, alias);
      where := [c];
    }
  }

  /** `mutation_to_sql_opts` */
  method CompileMutation(root: MutationRoot, stringify: bool) returns (st: Statement)
    ensures st == MutationToSql(root, stringify)
  {
    var ctx := new Generator.Ctx(stringify);
    match root {
      case MutationTypename(_, name) => st := SelectText(name);
      case InsertRoot(_, t, columns, rows, check, output) =>
        st := SelectFromCte(ctx, "ins", InsertDml(t, columns, rows), check, output);
      case UpdateRoot(_, t, sets, target, check, output) =>
        var where := TargetConds(ctx, target, "_upd_target");
        st := SelectFromCte(ctx, "upd", UpdateDml(t, "_upd_target", sets, where), check, output);
      case DeleteRoot(_, t, target, output) =>
        var where := TargetConds(ctx, target, "_del_target");
        st := SelectFromCte(ctx, "del", DeleteDml(t, "_del_target", where), None, output);
    }
  }
}
