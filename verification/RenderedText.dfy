/** From characters to truth: the text written for a predicate, in any spacing, is
    lexed, read and evaluated to the predicate's own truth value. */
module RenderedText {
  import opened Values
  import opened Database
  import opened Sql
  import opened SqlGen
  import opened Rendering
  import opened RenderingCorrect
  import opened RenderedMeaning
  import opened Lexing
  import LexingCorrect
  import JsonText
  import PredicateCorrect
  import Planner
  import Ir
  import Meaning

  // ----- conditions whose operators have a text -----

  predicate CondOps(c: Cond)
    decreases c, 0
  {
    match c
    case CAnd(cs) => forall i :: 0 <= i < |cs| ==> CondOps(cs[i])
    case COr(cs) => forall i :: 0 <= i < |cs| ==> CondOps(cs[i])
    case CNot(x) => CondOps(x)
    case CCmp(op, l, r) => KnownOp(op) && ExprOps(l) && ExprOps(r)
    case CIn(e, items) => ExprOps(e) && forall i :: 0 <= i < |items| ==> ExprOps(items[i])
    case CNotIn(e, items) => ExprOps(e) && forall i :: 0 <= i < |items| ==> ExprOps(items[i])
    case CIsNull(e) => ExprOps(e)
    case CIsNotNull(e) => ExprOps(e)
    case CExists(_, where) => forall i :: 0 <= i < |where| ==> CondOps(where[i])
    case _ => true
  }

  predicate ExprOps(e: Expr)
    decreases e, 0
  {
    match e
    case Sub(q) => forall i :: 0 <= i < |q.where| ==> CondOps(q.where[i])
    case _ => true
  }

  // ----- what is emitted can be lexed -----

  lemma {:induction false} CastLexable(t: Token, ty: Token, k: Tokens)
    requires Lexable(k) && Written(t) && Written(ty) && !t.TNot? && !ty.TNot?
    ensures Lexable(EmitCast(t, ty, k))
  {
    var cast := Tok(TCast, Tok(ty, k));
    assert Lexable(cast);
    assert Lexable(Tok(t, Tok(TRParen, cast)));
  }

  lemma {:induction false} LitLexable(v: Value, ty: string, k: Tokens)
    requires Lexable(k)
    ensures Lexable(EmitLit(v, ty, k))
  {
    match v
    case Num(n) => CastLexable(TNum(n), TIdent(ty), k);
    case Text(s) => CastLexable(TStr(s), TIdent(ty), k);
    case Arr(_) => CastLexable(TStr(JsonText.Serialized(v)), TIdent(ty), k);
    case Obj(_) => CastLexable(TStr(JsonText.Serialized(v)), TIdent(ty), k);
    case _ =>
  }

  lemma {:induction false} ArgLexable(a: Arg, k: Tokens)
    requires Lexable(k)
    ensures Lexable(EmitArg(a, k))
  {
    match a
    case WholeRow(_) =>
    case JsonArg(json) => CastLexable(TStr(json), TJson, k);
    case ValueArg(v, ty) => LitLexable(v, ty, k);
    case NamedArg(_, v, ty) => LitLexable(v, ty, k);
  }

  lemma {:induction false} MoreArgsLexable(args: seq<Arg>, k: Tokens)
    requires Lexable(k)
    ensures Lexable(EmitMoreArgs(args, k))
  {
    if args != [] {
      MoreArgsLexable(args[1..], k);
      ArgLexable(args[0], EmitMoreArgs(args[1..], k));
    }
  }

  lemma {:induction false} ArgsLexable(args: seq<Arg>, k: Tokens)
    requires Lexable(k)
    ensures Lexable(EmitArgs(args, k))
  {
    if args != [] {
      MoreArgsLexable(args[1..], k);
      ArgLexable(args[0], EmitMoreArgs(args[1..], k));
    }
  }

  lemma {:induction false} NameLexable(a: string, b: string, k: Tokens)
    requires Lexable(k)
    ensures Lexable(EmitName(a, b, k))
  {
  }

  lemma {:induction false} FromLexable(from: From, k: Tokens)
    requires Lexable(k)
    ensures Lexable(EmitFrom(from, k))
  {
    match from
    case FromTable(t, alias) => NameLexable(t.schema, t.name, EmitAs(alias, k));
    case FromCall(fn, args, alias) =>
      ArgsLexable(args, EmitAs(alias, k));
      NameLexable(fn.schema, fn.name, Tok(TLParen, EmitArgs(args, EmitAs(alias, k))));
    case Derived(_, _) =>
  }

  lemma {:induction false} ExprLexable(e: Expr, k: Tokens)
    requires Lexable(k) && WritableExpr(e) && ExprOps(e)
    ensures Lexable(EmitExpr(e, k))
    decreases e, 0
  {
    match e
    case Col(alias, column) => NameLexable(alias, column, k);
    case Lit(v, ty) => LitLexable(v, ty, k);
    case Call(fn, args) =>
      ArgsLexable(args, k);
      NameLexable(fn.schema, fn.name, Tok(TLParen, EmitArgs(args, k)));
    case Sub(q) => SubLexable(q, k);
  }

  lemma {:induction false} SubLexable(q: Select, k: Tokens)
    requires Lexable(k) && WritableSub(q) && forall i :: 0 <= i < |q.where| ==> CondOps(q.where[i])
    ensures Lexable(EmitSub(q, k))
    decreases q, 0
  {
    ChainLexable(q.where, TAnd, EmitLimit(k));
    var where := Tok(TWhere, EmitChain(q.where, TAnd, EmitLimit(k)));
    FromLexable(q.from, where);
    NameLexable(q.proj.e.alias, q.proj.e.column, Tok(TFrom, EmitFrom(q.from, where)));
  }

  lemma {:induction false} ItemsLexable(items: seq<Expr>, k: Tokens)
    requires Lexable(k) && forall i :: 0 <= i < |items| ==> WritableExpr(items[i]) && ExprOps(items[i])
    ensures Lexable(EmitItems(items, k))
    decreases items, 1
  {
    if |items| == 1 {
      ExprLexable(items[0], Tok(TRParen, k));
    } else if items != [] {
      ItemsLexable(items[1..], k);
      ExprLexable(items[0], Tok(TComma, EmitItems(items[1..], k)));
    }
  }

  /** No condition begins with an operator. */
  lemma {:induction false} CondStarts(c: Cond, k: Tokens)
    requires Writable(c)
    ensures !AtOp(EmitCond(c, k))
  {
  }

  lemma {:induction false} CondLexable(c: Cond, k: Tokens)
    requires Lexable(k) && Writable(c) && CondOps(c)
    ensures Lexable(EmitCond(c, k))
    decreases c, 1
  {
    match c
    case CTrue =>
    case CFalse =>
    case CAnd(cs) => ChainLexable(cs, TAnd, Tok(TRParen, k));
    case COr(cs) => ChainLexable(cs, TOr, Tok(TRParen, k));
    case CNot(x) =>
      CondLexable(x, Tok(TRParen, k));
      CondStarts(x, Tok(TRParen, k));
    case CCmp(op, l, r) =>
      ExprLexable(r, k);
      ExprLexable(l, Tok(TOp(op), EmitExpr(r, k)));
    case CIn(e, items) =>
      ItemsLexable(items, k);
      ExprLexable(e, Tok(TIn, Tok(TLParen, EmitItems(items, k))));
    case CNotIn(e, items) =>
      ItemsLexable(items, k);
      ExprLexable(e, Tok(TNot, Tok(TIn, Tok(TLParen, EmitItems(items, k)))));
    case CIsNull(e) => ExprLexable(e, Tok(TIs, Tok(TNull, k)));
    case CIsNotNull(e) => ExprLexable(e, Tok(TIs, Tok(TNot, Tok(TNull, k))));
    case CExists(_, _) => ExistsLexable(c, k);
  }

  lemma {:induction false} ExistsLexable(c: Cond, k: Tokens)
    requires c.CExists? && Lexable(k) && Writable(c) && CondOps(c)
    ensures Lexable(EmitCond(c, k))
    decreases c, 0
  {
    ChainLexable(c.where, TAnd, Tok(TRParen, k));
    var where := Tok(TWhere, EmitChain(c.where, TAnd, Tok(TRParen, k)));
    FromLexable(c.from, where);
    var from := Tok(TFrom, EmitFrom(c.from, where));
    var target := Tok(TSelect, Tok(TNum(1), from));
    assert Lexable(from) && Lexable(target);
    assert Lexable(Tok(TLParen, target));
  }

  lemma {:induction false} ChainLexable(cs: seq<Cond>, sep: Token, k: Tokens)
    requires Lexable(k) && (sep.TAnd? || sep.TOr?) && forall i :: 0 <= i < |cs| ==> Writable(cs[i]) && CondOps(cs[i])
    ensures Lexable(EmitChain(cs, sep, k))
    decreases cs, 2
  {
    if cs != [] {
      RestLexable(cs[1..], sep, k);
      CondLexable(cs[0], EmitRest(cs[1..], sep, k));
    }
  }

  lemma {:induction false} RestLexable(cs: seq<Cond>, sep: Token, k: Tokens)
    requires Lexable(k) && (sep.TAnd? || sep.TOr?) && forall i :: 0 <= i < |cs| ==> Writable(cs[i]) && CondOps(cs[i])
    ensures Lexable(EmitRest(cs, sep, k))
    decreases cs, 1
  {
    if cs != [] {
      RestLexable(cs[1..], sep, k);
      CondLexable(cs[0], EmitRest(cs[1..], sep, k));
    }
  }

  // ----- compiled predicates -----

  predicate KnownCompare(op: Ir.CompareOp) {
    match op
    case Bin(o, _) => KnownOp(o)
    case BinAs(o, _, _) => KnownOp(o)
    case Column(o, _, _) => KnownOp(o)
    case ColumnRel(o, _, _, _) => KnownOp(o)
    case _ => true
  }

  predicate KnownOps(e: Ir.BoolExp) {
    match e
    case And(es) => forall i :: 0 <= i < |es| ==> KnownOps(es[i])
    case Or(es) => forall i :: 0 <= i < |es| ==> KnownOps(es[i])
    case Not(x) => KnownOps(x)
    case Compare(_, _, op) => KnownCompare(op)
    case ComputedCompare(_, _, _, op) => KnownCompare(op)
    case Relationship(_, _, p) => KnownOps(p)
    case RowFunctionExists(_, _, p) => KnownOps(p)
    case Exists(_, p) => KnownOps(p)
  }

  /** The planner uses only operators that have a text. */
  lemma {:induction false} PlannedOpKnown(raw: string, v: Value, ctx: Planner.TableCtx, md: Planner.Metadata, s: Planner.Session, perm: bool)
    requires Planner.ParseOp(raw, v, ctx, md, s, perm).Ok?
    ensures KnownCompare(Planner.ParseOp(raw, v, ctx, md, s, perm).value)
  {
    var name := Planner.OpName(raw);
    if Planner.ScalarOp(name).Some? {
      ScalarKnown(name);
    } else if Planner.JsonOp(name).Some? {
      JsonOpKnown(name);
    }
  }

  lemma {:induction false} ScalarKnown(name: string)
    requires Planner.ScalarOp(name).Some?
    ensures KnownOp(Planner.ScalarOp(name).value)
  {
  }

  lemma {:induction false} JsonOpKnown(name: string)
    requires Planner.JsonOp(name).Some?
    ensures KnownOp(Planner.JsonOp(name).value.0)
  {
  }

  lemma {:induction false} CompareKnown(op: Ir.CompareOp, pgType: string, l: Expr, alias: string, root: string, n: nat)
    requires KnownCompare(op) && ExprOps(l)
    ensures CondOps(CompareSql(op, pgType, l, alias, root, n).it)
  {
    if op.ColumnRel? {
      var conds := JoinConds(op.join, AliasName(n), alias);
      assert forall i :: 0 <= i < |conds| ==> CondOps(conds[i]);
    }
  }

  lemma {:induction false} BoolKnown(e: Ir.BoolExp, alias: string, root: string, n: nat)
    requires KnownOps(e)
    ensures CondOps(BoolSql(e, alias, root, n).it)
    decreases e, 0
  {
    match e
    case And(es) => BoolListKnown(es, alias, root, n);
    case Or(es) => BoolListKnown(es, alias, root, n);
    case Not(x) => BoolKnown(x, alias, root, n);
    case Compare(c, ty, op) => CompareKnown(op, ty, Col(alias, c), alias, root, n);
    case ComputedCompare(fn, args, ty, op) => CompareKnown(op, ty, Call(fn, RowArgSql(args, alias)), alias, root, n);
    case Relationship(_, join, p) => BoolKnown(p, AliasName(n), root, n + 1);
    case RowFunctionExists(_, args, p) => BoolKnown(p, AliasName(n), root, n + 1);
    case Exists(_, p) => BoolKnown(p, AliasName(n), AliasName(n), n + 1);
  }

  lemma {:induction false} BoolListKnown(es: seq<Ir.BoolExp>, alias: string, root: string, n: nat)
    requires forall i :: 0 <= i < |es| ==> KnownOps(es[i])
    ensures forall i :: 0 <= i < |es| ==> CondOps(BoolListSql(es, alias, root, n).it[i])
    decreases es, 1
  {
    if es != [] {
      var k := |es| - 1;
      BoolListKnown(es[..k], alias, root, n);
      BoolKnown(es[k], alias, root, BoolListSql(es[..k], alias, root, n).next);
    }
  }

  lemma {:induction false} BoolLexable(e: Ir.BoolExp, alias: string, root: string, n: nat, k: Tokens)
    requires Printable(e) && KnownOps(e) && Lexable(k)
    ensures Lexable(EmitCond(BoolSql(e, alias, root, n).it, k))
  {
    BoolWritable(e, alias, root, n);
    BoolKnown(e, alias, root, n);
    CondLexable(BoolSql(e, alias, root, n).it, k);
  }

  /** Main result: any text that spells the condition, whatever its spacing, is
      lexed completely, has one reading under SQL precedence that leaves the
      following tokens alone, and that reading has the predicate's truth value. */
  lemma {:induction false} PrintedConditionMeaning(e: Ir.BoolExp, alias: string, root: string, n: nat, k: Tokens, text: string, env: Env, db: Db)
    requires Printable(e) && KnownOps(e) && Lexable(k) && Ends(k) && !AtAnd(k) && !AtOr(k)
    requires alias in env && root in env && PredicateCorrect.Older(alias, n) && PredicateCorrect.Older(root, n)
    requires Spells(text, EmitCond(BoolSql(e, alias, root, n).it, k))
    ensures
      Lexed(text).Some? &&
      var read := ReadOr(Lexed(text).value);
      read.Some? && read.value.1 == k && EvalCond(read.value.0, env, db) == Meaning.Holds(e, db, env[alias], env[root])
  {
    BoolLexable(e, alias, root, n, k);
    LexingCorrect.SpellingLexes(text, EmitCond(BoolSql(e, alias, root, n).it, k));
    RenderedConditionMeaning(e, alias, root, n, k, env, db);
  }

  /** There is such a text: one space before every token. */
  lemma {:induction false} SpacedText(e: Ir.BoolExp, alias: string, root: string, n: nat, k: Tokens)
    requires Printable(e) && KnownOps(e) && Lexable(k)
    ensures
      var ts := EmitCond(BoolSql(e, alias, root, n).it, k);
      Spells(LexingCorrect.Spaced(ts), ts)
  {
    BoolLexable(e, alias, root, n, k);
    LexingCorrect.SpacedSpells(EmitCond(BoolSql(e, alias, root, n).it, k));
  }
}
