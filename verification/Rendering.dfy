/** The text of a condition, as tokens, and its reading under SQL precedence
    (OR < AND < NOT < comparison). The hand-placed parentheses of the generator
    are exactly enough: every rendered condition reads back with its own truth
    value. */
module Rendering {
  import opened Values
  import JsonText
  import opened Database
  import opened Sql

  datatype Token =
    | TIdent(name: string) | TStr(s: string) | TNum(n: int) | TOp(op: BinOp)
    | TAnd | TOr | TNot | TTrue | TFalse | TNull | TIs | TIn | TExists | TSelect | TFrom | TAs | TWhere | TLimit
    | TLParen | TRParen | TDot | TComma | TCast | TJson
    | TWord(word: string)   // any other keyword: THEN, ORDER, RETURNING

  datatype Tokens = End | Tok(head: Token, tail: Tokens)

  // ----- what the generator writes; `k` is the text that follows -----

  function EmitName(a: string, b: string, k: Tokens): Tokens {
    var rest := Tok(TDot, Tok(TIdent(b), k));
    Tok(TIdent(a), rest)
  }

  function EmitCast(t: Token, ty: Token, k: Tokens): Tokens {
    var close := Tok(TRParen, Tok(TCast, Tok(ty, k)));
    Tok(TLParen, Tok(t, close))
  }

  /** `scalar_sql` */
  function EmitLit(v: Value, pgType: string, k: Tokens): Tokens {
    match v
    case Bool(b) => Tok(if b then TTrue else TFalse, k)
    case Num(n) => EmitCast(TNum(n), TIdent(pgType), k)
    case Text(s) => EmitCast(TStr(s), TIdent(pgType), k)
    case Arr(_) => EmitCast(TStr(JsonText.Serialized(v)), TIdent(pgType), k)
    case Obj(_) => EmitCast(TStr(JsonText.Serialized(v)), TIdent(pgType), k)
    case _ => Tok(TNull, k)
  }

  function EmitArg(a: Arg, k: Tokens): Tokens {
    match a
    case WholeRow(alias) => Tok(TIdent(alias), k)
    case JsonArg(json) => EmitCast(TStr(json), TJson, k)
    case ValueArg(v, ty) => EmitLit(v, ty, k)
    case NamedArg(_, v, ty) => EmitLit(v, ty, k)
  }

  /** Arguments with a comma before each, and the closing parenthesis. */
  function EmitMoreArgs(args: seq<Arg>, k: Tokens): Tokens {
    if args == [] then Tok(TRParen, k) else Tok(TComma, EmitArg(args[0], EmitMoreArgs(args[1..], k)))
  }

  function EmitArgs(args: seq<Arg>, k: Tokens): Tokens {
    if args == [] then Tok(TRParen, k) else EmitArg(args[0], EmitMoreArgs(args[1..], k))
  }

  function EmitAs(alias: string, k: Tokens): Tokens {
    Tok(TAs, Tok(TIdent(alias), k))
  }

  /** `LIMIT 1)` */
  function EmitLimit(k: Tokens): Tokens {
    Tok(TLimit, Tok(TNum(1), Tok(TRParen, k)))
  }

  function EmitFrom(from: From, k: Tokens): Tokens {
    match from
    case FromTable(t, alias) => EmitName(t.schema, t.name, EmitAs(alias, k))
    case FromCall(fn, args, alias) =>
      var call := Tok(TLParen, EmitArgs(args, EmitAs(alias, k)));
      EmitName(fn.schema, fn.name, call)
    case Derived(_, _) => k
  }

  function EmitExpr(e: Expr, k: Tokens): Tokens
    decreases e, 0
  {
    match e
    case Col(alias, column) => EmitName(alias, column, k)
    case Lit(v, ty) => EmitLit(v, ty, k)
    case Call(fn, args) => EmitName(fn.schema, fn.name, Tok(TLParen, EmitArgs(args, k)))
    case Sub(q) => EmitSub(q, k)
    case _ => k
  }

  /** `(SELECT ra.column FROM table AS ra WHERE conds LIMIT 1)` */
  function EmitSub(q: Select, k: Tokens): Tokens
    decreases q, 0
  {
    if q.proj.As? && q.proj.e.Col? then
      var where := Tok(TWhere, EmitChain(q.where, TAnd, EmitLimit(k)));
      var from := Tok(TFrom, EmitFrom(q.from, where));
      Tok(TLParen, Tok(TSelect, EmitName(q.proj.e.alias, q.proj.e.column, from)))
    else k
  }

  /** A list and its closing parenthesis. */
  function EmitItems(items: seq<Expr>, k: Tokens): Tokens
    decreases items, 1
  {
    if items == [] then Tok(TRParen, k)
    else if |items| == 1 then EmitExpr(items[0], Tok(TRParen, k))
    else EmitExpr(items[0], Tok(TComma, EmitItems(items[1..], k)))
  }

  function EmitCond(c: Cond, k: Tokens): Tokens
    decreases c, 0
  {
    match c
    case CTrue => Tok(TTrue, k)
    case CFalse => Tok(TFalse, k)
    case CAnd(cs) => Tok(TLParen, EmitChain(cs, TAnd, Tok(TRParen, k)))
    case COr(cs) => Tok(TLParen, EmitChain(cs, TOr, Tok(TRParen, k)))
    case CNot(x) =>
      var inner := Tok(TNot, EmitCond(x, Tok(TRParen, k)));
      Tok(TLParen, inner)
    case CCmp(op, l, r) => EmitExpr(l, Tok(TOp(op), EmitExpr(r, k)))
    case CIn(e, items) =>
      var list := Tok(TLParen, EmitItems(items, k));
      EmitExpr(e, Tok(TIn, list))
    case CNotIn(e, items) =>
      var list := Tok(TLParen, EmitItems(items, k));
      EmitExpr(e, Tok(TNot, Tok(TIn, list)))
    case CIsNull(e) => EmitExpr(e, Tok(TIs, Tok(TNull, k)))
    case CIsNotNull(e) =>
      var rest := Tok(TNot, Tok(TNull, k));
      EmitExpr(e, Tok(TIs, rest))
    case CExists(from, where) =>
      var chain := Tok(TWhere, EmitChain(where, TAnd, Tok(TRParen, k)));
      var body := Tok(TFrom, EmitFrom(from, chain));
      var target := Tok(TSelect, Tok(TNum(1), body));
      Tok(TExists, Tok(TLParen, target))
  }

  /** `parts.join(sep)` */
  function EmitChain(cs: seq<Cond>, sep: Token, k: Tokens): Tokens
    decreases cs, 2
  {
    if cs == [] then k else EmitCond(cs[0], EmitRest(cs[1..], sep, k))
  }

  function EmitRest(cs: seq<Cond>, sep: Token, k: Tokens): Tokens
    decreases cs, 1
  {
    if cs == [] then k else Tok(sep, EmitCond(cs[0], EmitRest(cs[1..], sep, k)))
  }

  // ----- how SQL reads it -----

  type Parsed<T> = Option<(T, Tokens)>

  predicate AtAnd(ts: Tokens) { ts.Tok? && ts.head.TAnd? }
  predicate AtAs(ts: Tokens) { ts.Tok? && ts.head.TAs? }
  predicate AtCast(ts: Tokens) { ts.Tok? && ts.head.TCast? }
  predicate AtComma(ts: Tokens) { ts.Tok? && ts.head.TComma? }
  predicate AtDot(ts: Tokens) { ts.Tok? && ts.head.TDot? }
  predicate AtExists(ts: Tokens) { ts.Tok? && ts.head.TExists? }
  predicate AtFalse(ts: Tokens) { ts.Tok? && ts.head.TFalse? }
  predicate AtFrom(ts: Tokens) { ts.Tok? && ts.head.TFrom? }
  predicate AtIdent(ts: Tokens) { ts.Tok? && ts.head.TIdent? }
  predicate AtIn(ts: Tokens) { ts.Tok? && ts.head.TIn? }
  predicate AtIs(ts: Tokens) { ts.Tok? && ts.head.TIs? }
  predicate AtLParen(ts: Tokens) { ts.Tok? && ts.head.TLParen? }
  predicate AtLimit(ts: Tokens) { ts.Tok? && ts.head.TLimit? }
  predicate AtNot(ts: Tokens) { ts.Tok? && ts.head.TNot? }
  predicate AtNull(ts: Tokens) { ts.Tok? && ts.head.TNull? }
  predicate AtOne(ts: Tokens) { ts.Tok? && ts.head == TNum(1) }
  predicate AtOp(ts: Tokens) { ts.Tok? && ts.head.TOp? }
  predicate AtOr(ts: Tokens) { ts.Tok? && ts.head.TOr? }
  predicate AtRParen(ts: Tokens) { ts.Tok? && ts.head.TRParen? }
  predicate AtSelect(ts: Tokens) { ts.Tok? && ts.head.TSelect? }
  predicate AtTrue(ts: Tokens) { ts.Tok? && ts.head.TTrue? }
  predicate AtWhere(ts: Tokens) { ts.Tok? && ts.head.TWhere? }

  /** `(x)::type` */
  function ReadCast(ts: Tokens): (r: Parsed<(Token, Token)>)
    ensures r.Some? ==> r.value.1 < ts
  {
    if AtLParen(ts) && ts.tail.Tok? && AtRParen(ts.tail.tail) && AtCast(ts.tail.tail.tail) && ts.tail.tail.tail.tail.Tok? then
      var ty := ts.tail.tail.tail.tail;
      Some(((ts.tail.head, ty.head), ty.tail))
    else None
  }

  /** A literal; the cast type of NULL and of booleans is not written. */
  function ReadLit(ts: Tokens): (r: Parsed<(Value, string)>)
    ensures r.Some? ==> r.value.1 < ts
  {
    if AtNull(ts) then Some(((Null, ""), ts.tail))
    else if AtTrue(ts) then Some(((Bool(true), ""), ts.tail))
    else if AtFalse(ts) then Some(((Bool(false), ""), ts.tail))
    else
      var c := ReadCast(ts);
      if c.None? || !c.value.0.1.TIdent? then None
      else if c.value.0.0.TNum? then Some(((Num(c.value.0.0.n), c.value.0.1.name), c.value.1))
      else if c.value.0.0.TStr? then Some(((Text(c.value.0.0.s), c.value.0.1.name), c.value.1))
      else None
  }

  function ReadArg(ts: Tokens): (r: Parsed<Arg>)
    ensures r.Some? ==> r.value.1 < ts
  {
    if ts.Tok? && ts.head.TIdent? then Some((WholeRow(ts.head.name), ts.tail))
    else
      var c := ReadCast(ts);
      if c.Some? && c.value.0.0.TStr? && c.value.0.1.TJson? then Some((JsonArg(c.value.0.0.s), c.value.1))
      else
        var l := ReadLit(ts);
        if l.None? then None else Some((ValueArg(l.value.0.0, l.value.0.1), l.value.1))
  }

  /** The remaining arguments and the closing parenthesis. */
  function ReadMoreArgs(acc: seq<Arg>, ts: Tokens): (r: Parsed<seq<Arg>>)
    ensures r.Some? ==> r.value.1 < ts
    decreases ts
  {
    if AtRParen(ts) then Some((acc, ts.tail))
    else if AtComma(ts) then
      var a := ReadArg(ts.tail);
      if a.None? then None else ReadMoreArgs(acc + [a.value.0], a.value.1)
    else None
  }

  function ReadArgs(ts: Tokens): (r: Parsed<seq<Arg>>)
    ensures r.Some? ==> r.value.1 < ts
  {
    if AtRParen(ts) then Some(([], ts.tail))
    else
      var a := ReadArg(ts);
      if a.None? then None else ReadMoreArgs([a.value.0], a.value.1)
  }

  /** `"a"."b"` */
  function ReadName(ts: Tokens): (r: Parsed<(string, string)>)
    ensures r.Some? ==> r.value.1 < ts
  {
    if AtIdent(ts) && AtDot(ts.tail) && AtIdent(ts.tail.tail)
    then Some(((ts.head.name, ts.tail.tail.head.name), ts.tail.tail.tail))
    else None
  }

  /** `AS "alias"` */
  function ReadAs(ts: Tokens): (r: Parsed<string>)
    ensures r.Some? ==> r.value.1 < ts
  {
    if AtAs(ts) && AtIdent(ts.tail) then Some((ts.tail.head.name, ts.tail.tail)) else None
  }

  function ReadFrom(ts: Tokens): (r: Parsed<From>)
    ensures r.Some? ==> r.value.1 < ts
  {
    var name := ReadName(ts);
    if name.None? then None
    else
      var ((a, b), rest) := name.value;
      if AtLParen(rest) then
        var args := ReadArgs(rest.tail);
        if args.None? then None
        else
          var alias := ReadAs(args.value.1);
          if alias.None? then None else Some((FromCall(FnName(a, b), args.value.0, alias.value.0), alias.value.1))
      else
        var alias := ReadAs(rest);
        if alias.None? then None else Some((FromTable(Table(a, b), alias.value.0), alias.value.1))
  }

  function AndTree(cs: seq<Cond>): Cond
    requires cs != []
  {
    if |cs| == 1 then cs[0] else CAnd(cs)
  }

  function OrTree(cs: seq<Cond>): Cond
    requires cs != []
  {
    if |cs| == 1 then cs[0] else COr(cs)
  }

  function ReadOperand(ts: Tokens): (r: Parsed<Expr>)
    ensures r.Some? ==> r.value.1 < ts
    decreases ts, 1
  {
    var name := ReadName(ts);
    if name.Some? then
      var ((a, b), rest) := name.value;
      if AtLParen(rest) then
        var args := ReadArgs(rest.tail);
        if args.None? then None else Some((Call(FnName(a, b), args.value.0), args.value.1))
      else Some((Col(a, b), rest))
    else if AtLParen(ts) && AtSelect(ts.tail) then ReadSub(ts)
    else
      var l := ReadLit(ts);
      if l.None? then None else Some((Lit(l.value.0.0, l.value.0.1), l.value.1))
  }

  /** `FROM .. WHERE cond` */
  function ReadFromWhere(ts: Tokens): (r: Parsed<(From, Cond)>)
    ensures r.Some? ==> r.value.1 < ts
    decreases ts, 0
  {
    if !AtFrom(ts) then None
    else
      var from := ReadFrom(ts.tail);
      if from.None? || !AtWhere(from.value.1) then None
      else
        var where := ReadOr(from.value.1.tail);
        if where.None? then None else Some(((from.value.0, where.value.0), where.value.1))
  }

  function ReadSub(ts: Tokens): (r: Parsed<Expr>)
    requires AtLParen(ts) && AtSelect(ts.tail)
    ensures r.Some? ==> r.value.1 < ts
    decreases ts, 0
  {
    var name := ReadName(ts.tail.tail);
    if name.None? then None
    else
      var ((a, b), rest) := name.value;
      var body := ReadFromWhere(rest);
      if body.None? then None
      else
        var end := body.value.1;
        if AtLimit(end) && AtOne(end.tail) && AtRParen(end.tail.tail)
        then Some((Sub(Select(As(Col(a, b), b), body.value.0.0, [body.value.0.1], [], Some(1), None)), end.tail.tail.tail))
        else None
  }

  function ReadItems(acc: seq<Expr>, ts: Tokens): (r: Parsed<seq<Expr>>)
    ensures r.Some? ==> r.value.1 < ts
    decreases ts, 2
  {
    var e := ReadOperand(ts);
    if e.None? then None
    else if AtRParen(e.value.1) then Some((acc + [e.value.0], e.value.1.tail))
    else if AtComma(e.value.1) then ReadItems(acc + [e.value.0], e.value.1.tail)
    else None
  }

  function ReadOr(ts: Tokens): (r: Parsed<Cond>)
    ensures r.Some? ==> r.value.1 < ts
    decreases ts, 7
  {
    var c := ReadAnd(ts);
    if c.None? then None else ReadOrRest([c.value.0], c.value.1)
  }

  function ReadOrRest(acc: seq<Cond>, ts: Tokens): (r: Parsed<Cond>)
    requires acc != []
    ensures r.Some? ==> r.value.1 == ts || r.value.1 < ts
    decreases ts, 6
  {
    if AtOr(ts) then
      var c := ReadAnd(ts.tail);
      if c.None? then None else ReadOrRest(acc + [c.value.0], c.value.1)
    else Some((OrTree(acc), ts))
  }

  function ReadAnd(ts: Tokens): (r: Parsed<Cond>)
    ensures r.Some? ==> r.value.1 < ts
    decreases ts, 5
  {
    var c := ReadNot(ts);
    if c.None? then None else ReadAndRest([c.value.0], c.value.1)
  }

  function ReadAndRest(acc: seq<Cond>, ts: Tokens): (r: Parsed<Cond>)
    requires acc != []
    ensures r.Some? ==> r.value.1 == ts || r.value.1 < ts
    decreases ts, 4
  {
    if AtAnd(ts) then
      var c := ReadNot(ts.tail);
      if c.None? then None else ReadAndRest(acc + [c.value.0], c.value.1)
    else Some((AndTree(acc), ts))
  }

  function ReadNot(ts: Tokens): (r: Parsed<Cond>)
    ensures r.Some? ==> r.value.1 < ts
    decreases ts, 4
  {
    if AtNot(ts) then
      var c := ReadNot(ts.tail);
      if c.None? then None else Some((CNot(c.value.0), c.value.1))
    else ReadPrimary(ts)
  }

  function ReadPrimary(ts: Tokens): (r: Parsed<Cond>)
    ensures r.Some? ==> r.value.1 < ts
    decreases ts, 3
  {
    if AtLParen(ts) then
      var c := ReadOr(ts.tail);
      if c.None? || !AtRParen(c.value.1) then None else Some((c.value.0, c.value.1.tail))
    else if AtTrue(ts) then Some((CTrue, ts.tail))
    else if AtFalse(ts) then Some((CFalse, ts.tail))
    else if AtExists(ts) then ReadExists(ts)
    else
      var l := ReadOperand(ts);
      if l.None? then None else ReadComparison(l.value.0, l.value.1)
  }

  function ReadExists(ts: Tokens): (r: Parsed<Cond>)
    ensures r.Some? ==> r.value.1 < ts
    decreases ts, 2
  {
    if AtExists(ts) && AtLParen(ts.tail) && AtSelect(ts.tail.tail) && AtOne(ts.tail.tail.tail) then
      var body := ReadFromWhere(ts.tail.tail.tail.tail);
      if body.None? || !AtRParen(body.value.1) then None
      else Some((CExists(body.value.0.0, [body.value.0.1]), body.value.1.tail))
    else None
  }

  function ReadComparison(l: Expr, ts: Tokens): (r: Parsed<Cond>)
    ensures r.Some? ==> r.value.1 < ts
    decreases ts, 2
  {
    if AtOp(ts) then
      var r := ReadOperand(ts.tail);
      if r.None? then None else Some((CCmp(ts.head.op, l, r.value.0), r.value.1))
    else if AtIs(ts) then
      if AtNull(ts.tail) then Some((CIsNull(l), ts.tail.tail))
      else if AtNot(ts.tail) && AtNull(ts.tail.tail) then Some((CIsNotNull(l), ts.tail.tail.tail))
      else None
    else if AtIn(ts) && AtLParen(ts.tail) then
      var items := ReadItems([], ts.tail.tail);
      if items.None? then None else Some((CIn(l, items.value.0), items.value.1))
    else if AtNot(ts) && AtIn(ts.tail) && AtLParen(ts.tail.tail) then
      var items := ReadItems([], ts.tail.tail.tail);
      if items.None? then None else Some((CNotIn(l, items.value.0), items.value.1))
    else None
  }

  // ----- one step of the reader -----

  lemma SubStep(a: string, b: string, rest: Tokens, from: From, where: Cond, k: Tokens)
    requires ReadFromWhere(rest) == Some(((from, where), EmitLimit(k)))
    ensures ReadOperand(Tok(TLParen, Tok(TSelect, EmitName(a, b, rest)))) ==
            Some((Sub(Select(As(Col(a, b), b), from, [where], [], Some(1), None)), k))
  {
    assert ReadSub(Tok(TLParen, Tok(TSelect, EmitName(a, b, rest)))).Some?;
  }

  lemma ExistsStep(rest: Tokens, from: From, where: Cond, k: Tokens)
    requires ReadFromWhere(rest) == Some(((from, where), Tok(TRParen, k)))
    ensures ReadNot(Tok(TExists, Tok(TLParen, Tok(TSelect, Tok(TNum(1), rest))))) == Some((CExists(from, [where]), k))
  {
    var ts := Tok(TExists, Tok(TLParen, Tok(TSelect, Tok(TNum(1), rest))));
    assert ReadExists(ts) == Some((CExists(from, [where]), k));
    assert ReadPrimary(ts) == ReadExists(ts);
  }

  lemma CompareStep(l: Expr, op: BinOp, rest: Tokens)
    ensures ReadComparison(l, Tok(TOp(op), rest)) ==
            var r := ReadOperand(rest);
            if r.None? then None else Some((CCmp(op, l, r.value.0), r.value.1))
  {
  }

  lemma InStep(l: Expr, items: seq<Expr>, rest: Tokens, k: Tokens)
    requires ReadItems([], rest) == Some((items, k))
    ensures ReadComparison(l, Tok(TIn, Tok(TLParen, rest))) == Some((CIn(l, items), k))
    ensures ReadComparison(l, Tok(TNot, Tok(TIn, Tok(TLParen, rest)))) == Some((CNotIn(l, items), k))
  {
  }

  lemma ParenStep(ts: Tokens, c: Cond, k: Tokens)
    requires ReadOr(ts) == Some((c, Tok(TRParen, k)))
    ensures ReadNot(Tok(TLParen, ts)) == Some((c, k))
  {
  }

  lemma NotStep(ts: Tokens, c: Cond, k: Tokens)
    requires ReadNot(ts) == Some((c, k))
    ensures ReadNot(Tok(TNot, ts)) == Some((CNot(c), k))
  {
  }

  /** An operand that is not followed by AND is a whole AND level. */
  lemma NotIsAnd(ts: Tokens, c: Cond, k: Tokens)
    requires ReadNot(ts) == Some((c, k)) && !AtAnd(k)
    ensures ReadAnd(ts) == Some((c, k))
  {
  }

  /** A chain of AND operands that is not followed by OR reads the same at OR level. */
  lemma AndIsOr(ts: Tokens, c: Cond, k: Tokens)
    requires ReadAnd(ts) == Some((c, k)) && !AtOr(k)
    ensures ReadOr(ts) == Some((c, k))
  {
  }

  lemma AndStep(ts: Tokens, c: Cond, k: Tokens)
    requires ReadNot(ts) == Some((c, k))
    ensures ReadAnd(ts) == ReadAndRest([c], k)
  {
  }

  lemma AndRestStep(acc: seq<Cond>, ts: Tokens, c: Cond, k: Tokens)
    requires acc != [] && ReadNot(ts) == Some((c, k))
    ensures ReadAndRest(acc, Tok(TAnd, ts)) == ReadAndRest(acc + [c], k)
  {
  }

  lemma OrStep(ts: Tokens, c: Cond, k: Tokens)
    requires ReadAnd(ts) == Some((c, k))
    ensures ReadOr(ts) == ReadOrRest([c], k)
  {
  }

  lemma OrRestStep(acc: seq<Cond>, ts: Tokens, c: Cond, k: Tokens)
    requires acc != [] && ReadAnd(ts) == Some((c, k))
    ensures ReadOrRest(acc, Tok(TOr, ts)) == ReadOrRest(acc + [c], k)
  {
  }

  // ----- what cannot be read -----

  lemma NotUnreadable(ts: Tokens)
    requires ReadNot(ts).None?
    ensures ReadOr(ts).None?
  {
    assert ReadAnd(ts).None?;
  }

  lemma LimitUnreadable(ts: Tokens)
    requires AtLimit(ts)
    ensures ReadOr(ts).None?
  {
    assert ReadName(ts).None? && ReadLit(ts).None?;
    assert ReadOperand(ts).None?;
    assert ReadPrimary(ts).None?;
    NotUnreadable(ts);
  }

  lemma SubUnreadable(a: string, b: string, rest: Tokens)
    requires ReadFromWhere(rest).None?
    ensures ReadOperand(Tok(TLParen, Tok(TSelect, EmitName(a, b, rest)))).None?
  {
    assert ReadSub(Tok(TLParen, Tok(TSelect, EmitName(a, b, rest)))).None?;
  }
}
