/** The text written for a predicate means what the predicate means. */
module RenderedMeaning {
  import opened Values
  import opened Database
  import opened Sql
  import opened SqlGen
  import opened Rendering
  import opened RenderingCorrect
  import PredicateCorrect
  import Ir
  import Meaning

  // ----- the tree read back has the same value -----

  lemma ArgsSame(args: seq<Arg>, env: Env, eng: Engine)
    ensures EvalArgs(NormArgs(args), env, eng) == EvalArgs(args, env, eng)
  {
  }

  lemma AndTreeTruth(cs: seq<Cond>, env: Env, db: Db)
    requires cs != []
    ensures EvalCond(AndTree(cs), env, db) == AndChain(Truths(cs, env, db))
  {
    if |cs| == 1 {
      assert Truths(cs, env, db) == [EvalCond(cs[0], env, db)];
    }
  }

  lemma OrTreeTruth(cs: seq<Cond>, env: Env, db: Db)
    requires cs != []
    ensures EvalCond(OrTree(cs), env, db) == OrChain(Truths(cs, env, db))
  {
    if |cs| == 1 {
      assert Truths(cs, env, db) == [EvalCond(cs[0], env, db)];
    }
  }

  lemma {:induction false} TruthsSame(cs: seq<Cond>, env: Env, db: Db)
    requires forall i :: 0 <= i < |cs| ==> Writable(cs[i])
    ensures Truths(NormConds(cs), env, db) == Truths(cs, env, db)
    decreases cs, 1
  {
    forall i | 0 <= i < |cs| {
      CondSame(cs[i], env, db);
    }
  }

  lemma {:induction false} WhereSame(where: seq<Cond>, env: Env, db: Db)
    requires where != [] && forall i :: 0 <= i < |where| ==> Writable(where[i])
    ensures WhereHolds([AndTree(NormConds(where))], env, db) == WhereHolds(where, env, db)
    decreases where, 2
  {
    TruthsSame(where, env, db);
    AndTreeTruth(NormConds(where), env, db);
    PredicateCorrect.WhereSingle(AndTree(NormConds(where)), env, db);
  }

  lemma {:induction false} MaskSame(rows: seq<Row>, alias: string, where: seq<Cond>, env: Env, db: Db)
    requires where != [] && forall i :: 0 <= i < |where| ==> Writable(where[i])
    ensures WhereMask(rows, alias, [AndTree(NormConds(where))], env, db) == WhereMask(rows, alias, where, env, db)
    decreases where, 3
  {
    forall i | 0 <= i < |rows| {
      WhereSame(where, env[alias := rows[i]], db);
    }
  }

  lemma {:induction false} SubSame(q: Select, env: Env, db: Db)
    requires WritableSub(q)
    ensures EvalExpr(NormExpr(Sub(q)), env, db) == EvalExpr(Sub(q), env, db)
    decreases q, 0
  {
    var rows := Rows(db, q.from.table);
    var norm := q.(where := [AndTree(NormConds(q.where))]);
    MaskSame(rows, q.from.alias, q.where, env, db);
    PredicateCorrect.UnorderedSurviving(q, env, db);
    PredicateCorrect.UnorderedSurviving(norm, env, db);
    assert Projected(norm, env, db) == Projected(q, env, db);
  }

  lemma {:induction false} ExprSame(e: Expr, env: Env, db: Db)
    requires WritableExpr(e)
    ensures EvalExpr(NormExpr(e), env, db) == EvalExpr(e, env, db)
    decreases e, 0
  {
    match e
    case Col(_, _) =>
    case Lit(_, _) =>
    case Call(_, args) => ArgsSame(args, env, db.engine);
    case Sub(q) => SubSame(q, env, db);
  }

  lemma {:induction false} ExprsSame(es: seq<Expr>, env: Env, db: Db)
    requires forall i :: 0 <= i < |es| ==> WritableExpr(es[i])
    ensures Evals(NormExprs(es), env, db) == Evals(es, env, db)
    decreases es, 1
  {
    forall i | 0 <= i < |es| {
      ExprSame(es[i], env, db);
    }
  }

  lemma {:induction false} CondSame(c: Cond, env: Env, db: Db)
    requires Writable(c)
    ensures EvalCond(NormCond(c), env, db) == EvalCond(c, env, db)
    decreases c, 1
  {
    match c
    case CTrue =>
    case CFalse =>
    case CAnd(cs) =>
      TruthsSame(cs, env, db);
      AndTreeTruth(NormConds(cs), env, db);
    case COr(cs) =>
      TruthsSame(cs, env, db);
      OrTreeTruth(NormConds(cs), env, db);
    case CNot(x) => CondSame(x, env, db);
    case CCmp(_, l, r) =>
      ExprSame(l, env, db);
      ExprSame(r, env, db);
    case CIn(e, items) =>
      ExprSame(e, env, db);
      ExprsSame(items, env, db);
    case CNotIn(e, items) =>
      ExprSame(e, env, db);
      ExprsSame(items, env, db);
    case CIsNull(e) => ExprSame(e, env, db);
    case CIsNotNull(e) => ExprSame(e, env, db);
    case CExists(_, _) => ExistsSame(c, env, db);
  }

  lemma {:induction false} ExistsSame(c: Cond, env: Env, db: Db)
    requires c.CExists? && Writable(c)
    ensures EvalCond(NormCond(c), env, db) == EvalCond(c, env, db)
    decreases c, 0
  {
    if c.from.FromCall? {
      ArgsSame(c.from.args, env, db.engine);
    }
    MaskSame(FromRows(c.from, env, db), c.from.alias, c.where, env, db);
  }

  // ----- every compiled predicate is writable -----

  predicate PlainRowArgs(args: seq<Ir.RowArg>) {
    forall i :: 0 <= i < |args| && args[i].Given? ==> PlainValue(args[i].value, args[i].pgType)
  }

  predicate PlainOp(op: Ir.CompareOp, pgType: string) {
    match op
    case Bin(_, v) => PlainValue(v, pgType)
    case BinAs(_, v, ty) => PlainValue(v, ty)
    case In(vs) => forall i :: 0 <= i < |vs| ==> PlainValue(vs[i], pgType)
    case Nin(vs) => forall i :: 0 <= i < |vs| ==> PlainValue(vs[i], pgType)
    case ColumnRel(_, _, join, _) => join != []
    case _ => true
  }

  /** No GeoJSON literals, and a relationship column comparison joins on
      something. */
  predicate Printable(e: Ir.BoolExp) {
    match e
    case And(es) => forall i :: 0 <= i < |es| ==> Printable(es[i])
    case Or(es) => forall i :: 0 <= i < |es| ==> Printable(es[i])
    case Not(x) => Printable(x)
    case Compare(_, ty, op) => PlainOp(op, ty)
    case ComputedCompare(_, args, ty, op) => PlainRowArgs(args) && PlainOp(op, ty)
    case Relationship(_, _, p) => Printable(p)
    case RowFunctionExists(_, args, p) => PlainRowArgs(args) && Printable(p)
    case Exists(_, p) => Printable(p)
  }

  lemma CompareWritable(op: Ir.CompareOp, pgType: string, l: Expr, alias: string, root: string, n: nat)
    requires PlainOp(op, pgType) && (l.Col? || l.Call?) && WritableExpr(l)
    ensures Writable(CompareSql(op, pgType, l, alias, root, n).it)
  {
    if op.ColumnRel? {
      var conds := JoinConds(op.join, AliasName(n), alias);
      assert forall i :: 0 <= i < |conds| ==> Writable(conds[i]);
    }
  }

  lemma {:induction false} BoolWritable(e: Ir.BoolExp, alias: string, root: string, n: nat)
    requires Printable(e)
    ensures Writable(BoolSql(e, alias, root, n).it)
    decreases e, 0
  {
    match e
    case And(es) => BoolListWritable(es, alias, root, n);
    case Or(es) => BoolListWritable(es, alias, root, n);
    case Not(x) => BoolWritable(x, alias, root, n);
    case Compare(c, ty, op) => CompareWritable(op, ty, Col(alias, c), alias, root, n);
    case ComputedCompare(fn, args, ty, op) => CompareWritable(op, ty, Call(fn, RowArgSql(args, alias)), alias, root, n);
    case Relationship(_, join, p) => BoolWritable(p, AliasName(n), root, n + 1);
    case RowFunctionExists(_, args, p) => BoolWritable(p, AliasName(n), root, n + 1);
    case Exists(_, p) => BoolWritable(p, AliasName(n), AliasName(n), n + 1);
  }

  lemma {:induction false} BoolListWritable(es: seq<Ir.BoolExp>, alias: string, root: string, n: nat)
    requires forall i :: 0 <= i < |es| ==> Printable(es[i])
    ensures forall i :: 0 <= i < |es| ==> Writable(BoolListSql(es, alias, root, n).it[i])
    decreases es, 1
  {
    if es != [] {
      var k := |es| - 1;
      BoolListWritable(es[..k], alias, root, n);
      BoolWritable(es[k], alias, root, BoolListSql(es[..k], alias, root, n).next);
    }
  }

  /** Main result: the text written for a predicate has exactly one reading
      under SQL precedence, it leaves the following text alone, and its truth
      value is that of the predicate. */
  lemma RenderedConditionMeaning(e: Ir.BoolExp, alias: string, root: string, n: nat, k: Tokens, env: Env, db: Db)
    requires Printable(e) && Ends(k) && !AtAnd(k) && !AtOr(k)
    requires alias in env && root in env && PredicateCorrect.Older(alias, n) && PredicateCorrect.Older(root, n)
    ensures
      var read := ReadOr(EmitCond(BoolSql(e, alias, root, n).it, k));
      read.Some? && read.value.1 == k &&
      EvalCond(read.value.0, env, db) == Meaning.Holds(e, db, env[alias], env[root])
  {
    var c := BoolSql(e, alias, root, n).it;
    BoolWritable(e, alias, root, n);
    OrOperandReads(c, k);
    AndIsOr(EmitCond(c, k), NormCond(c), k);
    CondSame(c, env, db);
    PredicateCorrect.BoolCorrect(e, alias, root, n, env, db);
  }

  /** Inside an AND chain (a WHERE clause) the same holds before the next AND. */
  lemma RenderedConjunctMeaning(e: Ir.BoolExp, alias: string, root: string, n: nat, k: Tokens, env: Env, db: Db)
    requires Printable(e) && Ends(k)
    requires alias in env && root in env && PredicateCorrect.Older(alias, n) && PredicateCorrect.Older(root, n)
    ensures
      var read := ReadNot(EmitCond(BoolSql(e, alias, root, n).it, k));
      read.Some? && read.value.1 == k &&
      EvalCond(read.value.0, env, db) == Meaning.Holds(e, db, env[alias], env[root])
  {
    var c := BoolSql(e, alias, root, n).it;
    BoolWritable(e, alias, root, n);
    CondReads(c, k);
    CondSame(c, env, db);
    PredicateCorrect.BoolCorrect(e, alias, root, n, env, db);
  }

  /** The join must not be empty: a relationship column comparison over an empty
      column mapping is written with nothing between WHERE and LIMIT, which is
      not SQL, whatever the table, columns and operator. */
  lemma EmptyJoinUnreadable(op: BinOp, t: Table, column: string, c: string, pgType: string, alias: string, root: string,
    n: nat, k: Tokens)
    ensures ReadOr(EmitCond(BoolSql(Ir.Compare(c, pgType, Ir.ColumnRel(op, t, [], column)), alias, root, n).it, k)).None?
  {
    var ra := AliasName(n);
    assert JoinConds([], ra, alias) == [];
    ComparisonUnreadable(op, Col(alias, c), Select(As(Col(ra, column), column), FromTable(t, ra), [], [], Some(1), None), k);
  }
}
