/** Rendered conditions are unambiguous: reading the emitted tokens gives the
    condition back, up to dropping one-element chains and unwritten cast types,
    and that tree has the same truth value. */
module RenderingCorrect {
  import opened Values
  import JsonText
  import opened Database
  import opened Sql
  import opened Rendering

  // ----- the tree that is read back -----

  function NormLit(v: Value, pgType: string): (Value, string) {
    if v.Null? || v.Bool? then (v, "")
    else if AsJsonText(v, pgType) then (Text(JsonText.Serialized(v)), pgType)
    else (v, pgType)
  }

  function NormArg(a: Arg): Arg {
    if a.ValueArg? then
      var (v, ty) := NormLit(a.v, a.pgType);
      ValueArg(v, ty)
    else a
  }

  function NormArgs(args: seq<Arg>): (out: seq<Arg>)
    ensures |out| == |args|
  {
    seq(|args|, i requires 0 <= i < |args| => NormArg(args[i]))
  }

  function NormFrom(from: From): From {
    if from.FromCall? then FromCall(from.fn, NormArgs(from.args), from.alias) else from
  }

  function NormExpr(e: Expr): Expr
    decreases e, 0
  {
    match e
    case Lit(v, ty) =>
      var (w, t) := NormLit(v, ty);
      Lit(w, t)
    case Call(fn, args) => Call(fn, NormArgs(args))
    case Sub(q) =>
      if q.where == [] then e else Sub(q.(where := [AndTree(NormConds(q.where))]))
    case _ => e
  }

  function NormExprs(es: seq<Expr>): (out: seq<Expr>)
    ensures |out| == |es| && forall i :: 0 <= i < |es| ==> out[i] == NormExpr(es[i])
    decreases es, 1
  {
    seq(|es|, i requires 0 <= i < |es| => NormExpr(es[i]))
  }

  function NormCond(c: Cond): Cond
    decreases c, 0
  {
    match c
    case CAnd(cs) => if cs == [] then c else AndTree(NormConds(cs))
    case COr(cs) => if cs == [] then c else OrTree(NormConds(cs))
    case CNot(x) => CNot(NormCond(x))
    case CCmp(op, l, r) => CCmp(op, NormExpr(l), NormExpr(r))
    case CIn(e, items) => CIn(NormExpr(e), NormExprs(items))
    case CNotIn(e, items) => CNotIn(NormExpr(e), NormExprs(items))
    case CIsNull(e) => CIsNull(NormExpr(e))
    case CIsNotNull(e) => CIsNotNull(NormExpr(e))
    case CExists(from, where) =>
      if where == [] then c else CExists(NormFrom(from), [AndTree(NormConds(where))])
    case _ => c
  }

  function NormConds(cs: seq<Cond>): (out: seq<Cond>)
    ensures |out| == |cs| && forall i :: 0 <= i < |cs| ==> out[i] == NormCond(cs[i])
    decreases cs, 1
  {
    seq(|cs|, i requires 0 <= i < |cs| => NormCond(cs[i]))
  }

  // ----- what can be written -----

  /** Every JSON value but GeoJSON for PostGIS. */
  predicate PlainValue(v: Value, pgType: string) {
    !v.Error? && !(v.Obj? && IsGeoType(pgType))
  }

  predicate WritableArg(a: Arg) {
    match a
    case WholeRow(_) => true
    case JsonArg(_) => true
    case ValueArg(v, ty) => PlainValue(v, ty)
    case NamedArg(_, _, _) => false
  }

  predicate WritableArgs(args: seq<Arg>) {
    forall i :: 0 <= i < |args| ==> WritableArg(args[i])
  }

  predicate WritableFrom(from: From) {
    from.FromTable? || (from.FromCall? && WritableArgs(from.args))
  }

  /** Every chain, list and WHERE has something in it. */
  predicate Writable(c: Cond)
    decreases c, 0
  {
    match c
    case CTrue => true
    case CFalse => true
    case CAnd(cs) => cs != [] && forall i :: 0 <= i < |cs| ==> Writable(cs[i])
    case COr(cs) => cs != [] && forall i :: 0 <= i < |cs| ==> Writable(cs[i])
    case CNot(x) => Writable(x)
    case CCmp(_, l, r) => (l.Col? || l.Call?) && WritableExpr(l) && WritableExpr(r)
    case CIn(e, items) => (e.Col? || e.Call?) && WritableExpr(e) && items != [] && forall i :: 0 <= i < |items| ==> WritableExpr(items[i])
    case CNotIn(e, items) => (e.Col? || e.Call?) && WritableExpr(e) && items != [] && forall i :: 0 <= i < |items| ==> WritableExpr(items[i])
    case CIsNull(e) => (e.Col? || e.Call?) && WritableExpr(e)
    case CIsNotNull(e) => (e.Col? || e.Call?) && WritableExpr(e)
    case CExists(from, where) => WritableFrom(from) && where != [] && forall i :: 0 <= i < |where| ==> Writable(where[i])
  }

  predicate WritableExpr(e: Expr)
    decreases e, 0
  {
    match e
    case Col(_, _) => true
    case Lit(v, ty) => PlainValue(v, ty)
    case Call(_, args) => WritableArgs(args)
    case Sub(q) => WritableSub(q)
    case _ => false
  }

  predicate WritableSub(q: Select)
    decreases q, 0
  {
    q.proj.As? && q.proj.e.Col? && q.proj.name == q.proj.e.column && q.from.FromTable? && q.order == [] && q.limit == Some(1) &&
    q.offset == None && q.where != [] && forall i :: 0 <= i < |q.where| ==> Writable(q.where[i])
  }

  // ----- reading back -----

  /** Text that can follow a condition: anything but an argument list. */
  predicate Ends(k: Tokens) {
    !AtLParen(k)
  }

  lemma LitReads(v: Value, pgType: string, k: Tokens)
    requires PlainValue(v, pgType)
    ensures ReadLit(EmitLit(v, pgType, k)) == Some((NormLit(v, pgType), k))
  {
  }

  lemma ArgReads(a: Arg, k: Tokens)
    requires WritableArg(a)
    ensures ReadArg(EmitArg(a, k)) == Some((NormArg(a), k))
    ensures !AtRParen(EmitArg(a, k))
  {
    if a.ValueArg? {
      LitReads(a.v, a.pgType, k);
    }
  }

  lemma {:induction false} MoreArgsRead(acc: seq<Arg>, args: seq<Arg>, k: Tokens)
    requires WritableArgs(args)
    ensures ReadMoreArgs(acc, EmitMoreArgs(args, k)) == Some((acc + NormArgs(args), k))
    decreases |args|
  {
    if args == [] {
      assert acc + NormArgs(args) == acc;
    } else {
      ArgReads(args[0], EmitMoreArgs(args[1..], k));
      MoreArgsRead(acc + [NormArg(args[0])], args[1..], k);
      assert acc + [NormArg(args[0])] + NormArgs(args[1..]) == acc + NormArgs(args);
    }
  }

  lemma ArgsRead(args: seq<Arg>, k: Tokens)
    requires WritableArgs(args)
    ensures ReadArgs(EmitArgs(args, k)) == Some((NormArgs(args), k))
  {
    if args != [] {
      ArgReads(args[0], EmitMoreArgs(args[1..], k));
      MoreArgsRead([NormArg(args[0])], args[1..], k);
      assert [NormArg(args[0])] + NormArgs(args[1..]) == NormArgs(args);
    }
  }

  lemma FromReads(from: From, k: Tokens)
    requires WritableFrom(from)
    ensures ReadFrom(EmitFrom(from, k)) == Some((NormFrom(from), k))
  {
    if from.FromCall? {
      ArgsRead(from.args, Tok(TAs, Tok(TIdent(from.alias), k)));
    }
  }

  lemma {:induction false} OperandReads(e: Expr, k: Tokens)
    requires WritableExpr(e) && !AtLParen(k)
    ensures ReadOperand(EmitExpr(e, k)) == Some((NormExpr(e), k))
    decreases e, 0
  {
    match e
    case Col(a, c) =>
    case Lit(v, ty) => LitReads(v, ty, k);
    case Call(fn, args) => ArgsRead(args, k);
    case Sub(q) => SubReads(q, k);
  }

  /** The FROM and WHERE of a subquery. */
  lemma {:induction false} FromWhereReads(from: From, where: seq<Cond>, end: Tokens)
    requires WritableFrom(from) && where != [] && (forall i :: 0 <= i < |where| ==> Writable(where[i]))
    requires Ends(end) && !AtAnd(end) && !AtOr(end)
    ensures ReadFromWhere(Tok(TFrom, EmitFrom(from, Tok(TWhere, EmitChain(where, TAnd, end))))) ==
            Some(((NormFrom(from), AndTree(NormConds(where))), end))
    decreases where, 4
  {
    var chain := EmitChain(where, TAnd, end);
    FromReads(from, Tok(TWhere, chain));
    AndChainReads(where, end);
    AndIsOr(chain, AndTree(NormConds(where)), end);
  }

  lemma {:induction false} SubReads(q: Select, k: Tokens)
    requires WritableSub(q)
    ensures ReadOperand(EmitSub(q, k)) == Some((NormExpr(Sub(q)), k))
    decreases q, 0
  {
    FromWhereReads(q.from, q.where, EmitLimit(k));
    var end := EmitLimit(k);
    SubStep(q.proj.e.alias, q.proj.e.column, Tok(TFrom, EmitFrom(q.from, Tok(TWhere, EmitChain(q.where, TAnd, end)))),
      q.from, AndTree(NormConds(q.where)), k);
  }

  lemma {:induction false} ItemsRead(acc: seq<Expr>, items: seq<Expr>, k: Tokens)
    requires items != [] && forall i :: 0 <= i < |items| ==> WritableExpr(items[i])
    ensures ReadItems(acc, EmitItems(items, k)) == Some((acc + NormExprs(items), k))
    decreases items, 1
  {
    if |items| == 1 {
      OperandReads(items[0], Tok(TRParen, k));
      assert NormExprs(items) == [NormExpr(items[0])];
    } else {
      OperandReads(items[0], Tok(TComma, EmitItems(items[1..], k)));
      ItemsRead(acc + [NormExpr(items[0])], items[1..], k);
      assert acc + [NormExpr(items[0])] + NormExprs(items[1..]) == acc + NormExprs(items);
    }
  }

  lemma {:induction false} CondReads(c: Cond, k: Tokens)
    requires Writable(c) && Ends(k)
    ensures ReadNot(EmitCond(c, k)) == Some((NormCond(c), k))
    decreases c, 2
  {
    match c
    case CTrue =>
    case CFalse =>
    case CAnd(cs) =>
      AndChainReads(cs, Tok(TRParen, k));
      AndIsOr(EmitChain(cs, TAnd, Tok(TRParen, k)), AndTree(NormConds(cs)), Tok(TRParen, k));
      ParenStep(EmitChain(cs, TAnd, Tok(TRParen, k)), AndTree(NormConds(cs)), k);
    case COr(cs) =>
      OrChainReads(cs, Tok(TRParen, k));
      ParenStep(EmitChain(cs, TOr, Tok(TRParen, k)), OrTree(NormConds(cs)), k);
    case CNot(x) => NotReads(x, k);
    case CExists(from, where) => ExistsReads(c, k);
    case _ => ComparisonReads(c, k);
  }

  lemma {:induction false} NotReads(x: Cond, k: Tokens)
    requires Writable(x)
    ensures ReadNot(EmitCond(CNot(x), k)) == Some((CNot(NormCond(x)), k))
    decreases x, 3
  {
    var end := Tok(TRParen, k);
    var ts := Tok(TNot, EmitCond(x, end));
    CondReads(x, end);
    NotStep(EmitCond(x, end), NormCond(x), end);
    NotIsAnd(ts, CNot(NormCond(x)), end);
    AndIsOr(ts, CNot(NormCond(x)), end);
    ParenStep(ts, CNot(NormCond(x)), k);
  }

  lemma {:induction false} ExistsReads(c: Cond, k: Tokens)
    requires c.CExists? && Writable(c)
    ensures ReadNot(EmitCond(c, k)) == Some((NormCond(c), k))
    decreases c, 0
  {
    FromWhereReads(c.from, c.where, Tok(TRParen, k));
    var chain := Tok(TWhere, EmitChain(c.where, TAnd, Tok(TRParen, k)));
    var rest := Tok(TFrom, EmitFrom(c.from, chain));
    ExistsStep(rest, NormFrom(c.from), AndTree(NormConds(c.where)), k);
  }

  lemma {:induction false} ComparisonReads(c: Cond, k: Tokens)
    requires Writable(c) && Ends(k)
    requires c.CCmp? || c.CIn? || c.CNotIn? || c.CIsNull? || c.CIsNotNull?
    ensures ReadNot(EmitCond(c, k)) == Some((NormCond(c), k))
    decreases c, 1
  {
    match c
    case CCmp(op, l, r) =>
      StartsWithName(l, NormExpr(l), Tok(TOp(op), EmitExpr(r, k)));
      OperandReads(r, k);
      CompareStep(NormExpr(l), op, EmitExpr(r, k));
    case CIn(_, _) => InReads(c, k);
    case CNotIn(_, _) => InReads(c, k);
    case CIsNull(e) => StartsWithName(e, NormExpr(e), Tok(TIs, Tok(TNull, k)));
    case CIsNotNull(e) => StartsWithName(e, NormExpr(e), Tok(TIs, Tok(TNot, Tok(TNull, k))));
  }

  lemma {:induction false} InReads(c: Cond, k: Tokens)
    requires Writable(c) && (c.CIn? || c.CNotIn?)
    ensures ReadNot(EmitCond(c, k)) == Some((NormCond(c), k))
    decreases c, 0
  {
    var list := EmitItems(c.items, k);
    ItemsRead([], c.items, k);
    assert [] + NormExprs(c.items) == NormExprs(c.items);
    InStep(NormExpr(c.e), NormExprs(c.items), list, k);
    StartsWithName(c.e, NormExpr(c.e), Tok(TIn, Tok(TLParen, list)));
    StartsWithName(c.e, NormExpr(c.e), Tok(TNot, Tok(TIn, Tok(TLParen, list))));
  }

  /** A comparison starts with a name, so no other reading applies. */
  lemma {:induction false} StartsWithName(l: Expr, norm: Expr, k: Tokens)
    requires (l.Col? || l.Call?) && WritableExpr(l) && !AtLParen(k) && norm == NormExpr(l)
    ensures ReadNot(EmitExpr(l, k)) == ReadComparison(norm, k)
    decreases l, 1
  {
    OperandReads(l, k);
    assert EmitExpr(l, k).Tok? && EmitExpr(l, k).head.TIdent?;
  }

  lemma NormUncons(acc: seq<Cond>, cs: seq<Cond>, c: Cond)
    requires cs != [] && c == NormCond(cs[0])
    ensures acc + [c] + NormConds(cs[1..]) == acc + NormConds(cs)
  {
  }

  lemma {:induction false} AndRestReads(acc: seq<Cond>, cs: seq<Cond>, k: Tokens)
    requires acc != [] && (forall i :: 0 <= i < |cs| ==> Writable(cs[i])) && Ends(k) && !AtAnd(k)
    ensures ReadAndRest(acc, EmitRest(cs, TAnd, k)) == Some((AndTree(acc + NormConds(cs)), k))
    decreases cs, 1
  {
    if cs == [] {
      assert acc + NormConds(cs) == acc;
    } else {
      var c, rest := NormCond(cs[0]), EmitRest(cs[1..], TAnd, k);
      CondReads(cs[0], rest);
      AndRestStep(acc, EmitCond(cs[0], rest), c, rest);
      AndRestReads(acc + [c], cs[1..], k);
      NormUncons(acc, cs, c);
    }
  }

  lemma {:induction false} AndChainReads(cs: seq<Cond>, k: Tokens)
    requires cs != [] && (forall i :: 0 <= i < |cs| ==> Writable(cs[i])) && Ends(k) && !AtAnd(k)
    ensures ReadAnd(EmitChain(cs, TAnd, k)) == Some((AndTree(NormConds(cs)), k))
    decreases cs, 3
  {
    var c, rest := NormCond(cs[0]), EmitRest(cs[1..], TAnd, k);
    CondReads(cs[0], rest);
    AndStep(EmitCond(cs[0], rest), c, rest);
    AndRestReads([c], cs[1..], k);
    NormUncons([], cs, c);
    assert [] + [c] == [c] && [] + NormConds(cs) == NormConds(cs);
  }

  /** Between ORs each operand is a whole AND level of its own. */
  lemma {:induction false} OrOperandReads(c: Cond, k: Tokens)
    requires Writable(c) && Ends(k) && !AtAnd(k)
    ensures ReadAnd(EmitCond(c, k)) == Some((NormCond(c), k))
    decreases c, 3
  {
    CondReads(c, k);
    NotIsAnd(EmitCond(c, k), NormCond(c), k);
  }

  lemma {:induction false} OrRestReads(acc: seq<Cond>, cs: seq<Cond>, k: Tokens)
    requires acc != [] && (forall i :: 0 <= i < |cs| ==> Writable(cs[i])) && Ends(k) && !AtAnd(k) && !AtOr(k)
    ensures ReadOrRest(acc, EmitRest(cs, TOr, k)) == Some((OrTree(acc + NormConds(cs)), k))
    decreases cs, 1
  {
    if cs == [] {
      assert acc + NormConds(cs) == acc;
    } else {
      var c, rest := NormCond(cs[0]), EmitRest(cs[1..], TOr, k);
      OrOperandReads(cs[0], rest);
      OrRestStep(acc, EmitCond(cs[0], rest), c, rest);
      OrRestReads(acc + [c], cs[1..], k);
      NormUncons(acc, cs, c);
    }
  }

  lemma {:induction false} OrChainReads(cs: seq<Cond>, k: Tokens)
    requires cs != [] && (forall i :: 0 <= i < |cs| ==> Writable(cs[i])) && Ends(k) && !AtAnd(k) && !AtOr(k)
    ensures ReadOr(EmitChain(cs, TOr, k)) == Some((OrTree(NormConds(cs)), k))
    decreases cs, 3
  {
    var c, rest := NormCond(cs[0]), EmitRest(cs[1..], TOr, k);
    OrOperandReads(cs[0], rest);
    OrStep(EmitCond(cs[0], rest), c, rest);
    OrRestReads([c], cs[1..], k);
    NormUncons([], cs, c);
    assert [] + [c] == [c] && [] + NormConds(cs) == NormConds(cs);
  }

  /** A subselect with nothing between WHERE and LIMIT has no reading. */
  lemma EmptyWhereUnreadable(q: Select, k: Tokens)
    requires q.proj.As? && q.proj.e.Col? && q.from.FromTable? && q.where == []
    ensures ReadOperand(EmitSub(q, k)).None?
  {
    var end := EmitLimit(k);
    LimitUnreadable(end);
    FromReads(q.from, Tok(TWhere, end));
    assert EmitChain(q.where, TAnd, end) == end;
    SubUnreadable(q.proj.e.alias, q.proj.e.column, Tok(TFrom, EmitFrom(q.from, Tok(TWhere, end))));
  }

  /** So a comparison against it has none either. */
  lemma ComparisonUnreadable(op: BinOp, l: Expr, q: Select, k: Tokens)
    requires l.Col? && q.proj.As? && q.proj.e.Col? && q.from.FromTable? && q.where == []
    ensures ReadOr(EmitCond(CCmp(op, l, Sub(q)), k)).None?
  {
    EmptyWhereUnreadable(q, k);
    StartsWithName(l, l, Tok(TOp(op), EmitSub(q, k)));
    CompareStep(l, op, EmitSub(q, k));
    assert EmitCond(CCmp(op, l, Sub(q)), k) == EmitExpr(l, Tok(TOp(op), EmitSub(q, k)));
    NotUnreadable(EmitCond(CCmp(op, l, Sub(q)), k));
  }
}
