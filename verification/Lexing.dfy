/** The characters behind the tokens of a condition: whatever spacing is used, as
    long as neighbours are kept apart, a lexer gives the tokens back. */
module Lexing {
  import opened Values
  import opened Strings
  import opened Database
  import opened Quoting
  import opened Rendering
  import JsonText

  // ----- the text of a token -----

  function OpText(op: BinOp): string {
    match op
    case Eq => "="
    case Neq => "<>"
    case Gt => ">"
    case Lt => "<"
    case Gte => ">="
    case Lte => "<="
    case Named(symbol) => symbol
  }

  function TokenText(t: Token): string {
    match t
    case TIdent(name) => QuoteIdent(name)
    case TStr(s) => QuoteLit(s)
    case TNum(n) => JsonText.NumberText(n)
    case TOp(op) => OpText(op)
    case TAnd => "AND"
    case TOr => "OR"
    case TNot => "NOT"
    case TTrue => "TRUE"
    case TFalse => "FALSE"
    case TNull => "NULL"
    case TIs => "IS"
    case TIn => "IN"
    case TExists => "EXISTS"
    case TSelect => "SELECT"
    case TFrom => "FROM"
    case TAs => "AS"
    case TWhere => "WHERE"
    case TLimit => "LIMIT"
    case TLParen => "("
    case TRParen => ")"
    case TDot => "."
    case TComma => ","
    case TCast => "::"
    case TJson => "json"
    case TWord(word) => word
  }

  // ----- the lexer -----

  predicate OpChar(c: char) {
    c == '<' || c == '>' || c == '=' || c == '~' || c == '!' || c == '@' || c == '#' || c == '%' || c == '^' || c == '&' || c == '|' ||
    c == '?' || c == '*' || c == '+'
  }

  /** The longest prefix of operator characters. */
  function OpRun(text: string): (w: string)
    ensures |w| <= |text| && w == text[..|w|]
    ensures text != "" && OpChar(text[0]) ==> w != ""
  {
    if text == "" || !OpChar(text[0]) then "" else [text[0]] + OpRun(text[1..])
  }

  function OpOf(s: string): BinOp {
    match s
    case "=" => Eq
    case "<>" => Neq
    case ">" => Gt
    case "<" => Lt
    case ">=" => Gte
    case "<=" => Lte
    case _ => Named(s)
  }

  function Keyword(w: string): Token {
    match w
    case "AND" => TAnd
    case "OR" => TOr
    case "NOT" => TNot
    case "TRUE" => TTrue
    case "FALSE" => TFalse
    case "NULL" => TNull
    case "IS" => TIs
    case "IN" => TIn
    case "EXISTS" => TExists
    case "SELECT" => TSelect
    case "FROM" => TFrom
    case "AS" => TAs
    case "WHERE" => TWhere
    case "LIMIT" => TLimit
    case "json" => TJson
    case "LIKE" => TOp(Named("LIKE"))
    case "ILIKE" => TOp(Named("ILIKE"))
    case _ => TWord(w)
  }

  /** The text behind one space and the given word. */
  function Behind(text: string, word: string): (r: Option<string>)
    ensures r.Some? ==> |r.value| < |text|
  {
    if text != "" && text[0] == ' ' && Word(text[1..]) == word then Some(text[1 + |word|..]) else None
  }

  /** A word that has been read; some operators consist of several words. */
  function Phrase(w: string, rest: string): (r: (Token, string))
    ensures |r.1| <= |rest|
  {
    var like, ilike, similar := Behind(rest, "LIKE"), Behind(rest, "ILIKE"), Behind(rest, "SIMILAR");
    if w == "NOT" && like.Some? then (TOp(Named("NOT LIKE")), like.value)
    else if w == "NOT" && ilike.Some? then (TOp(Named("NOT ILIKE")), ilike.value)
    else if w == "NOT" && similar.Some? && Behind(similar.value, "TO").Some?
    then (TOp(Named("NOT SIMILAR TO")), Behind(similar.value, "TO").value)
    else if w == "SIMILAR" && Behind(rest, "TO").Some? then (TOp(Named("SIMILAR TO")), Behind(rest, "TO").value)
    else (Keyword(w), rest)
  }

  predicate Digit(c: char) {
    '0' <= c <= '9'
  }

  function Digits(text: string): (d: string)
    ensures |d| <= |text| && d == text[..|d|] && forall i :: 0 <= i < |d| ==> Digit(d[i])
  {
    if text == "" || !Digit(text[0]) then "" else [text[0]] + Digits(text[1..])
  }

  function NatOf(d: string): nat
    requires forall i :: 0 <= i < |d| ==> Digit(d[i])
  {
    if d == "" then 0
    else
      var last := d[|d| - 1];
      assert Digit(last);
      10 * NatOf(d[..|d| - 1]) + (last as int - '0' as int)
  }

  function LexNumber(text: string): (r: Option<(Token, string)>)
    ensures r.Some? ==> |r.value.1| < |text|
  {
    var minus := text != "" && text[0] == '-';
    var d := Digits(if minus then text[1..] else text);
    if d == "" then None
    else if minus then Some((TNum(0 - NatOf(d) as int), text[1 + |d|..]))
    else Some((TNum(NatOf(d)), text[|d|..]))
  }

  function LexQuoted(text: string): (r: Option<(Token, string)>)
    requires text != "" && (text[0] == '"' || text[0] == '\'')
    ensures r.Some? ==> |r.value.1| < |text|
  {
    UnquoteLength(text[1..], text[0]);
    var u := Unquote(text[1..], text[0]);
    if u.None? then None
    else Some((if text[0] == '"' then TIdent(u.value.0) else TStr(u.value.0), u.value.1))
  }

  function LexToken(text: string): (r: Option<(Token, string)>)
    requires text != ""
    ensures r.Some? ==> |r.value.1| < |text|
  {
    var c := text[0];
    if c == '"' || c == '\'' then LexQuoted(text)
    else if c == '(' then Some((TLParen, text[1..]))
    else if c == ')' then Some((TRParen, text[1..]))
    else if c == '.' then Some((TDot, text[1..]))
    else if c == ',' then Some((TComma, text[1..]))
    else if c == ':' then if |text| >= 2 && text[1] == ':' then Some((TCast, text[2..])) else None
    else if NameStart(c) then
      var w := Word(text);
      Some(Phrase(w, text[|w|..]))
    else if Digit(c) || c == '-' then LexNumber(text)
    else if OpChar(c) then
      var w := OpRun(text);
      Some((TOp(OpOf(w)), text[|w|..]))
    else None
  }

  function Lexed(text: string): Option<Tokens>
    decreases |text|
  {
    if text == "" then Some(End)
    else if text[0] == ' ' then Lexed(text[1..])
    else
      var t := LexToken(text);
      if t.None? then None
      else
        var rest := Lexed(t.value.1);
        if rest.None? then None else Some(Tok(t.value.0, rest.value))
  }

  // ----- which texts spell which tokens -----

  predicate IsName(s: string) {
    s != "" && NameStart(s[0]) && forall i :: 0 <= i < |s| ==> NameChar(s[i])
  }

  predicate IsSymbol(s: string) {
    s != "" && forall i :: 0 <= i < |s| ==> OpChar(s[i])
  }

  predicate IsPhrase(s: string) {
    s == "LIKE" || s == "NOT LIKE" || s == "ILIKE" || s == "NOT ILIKE" || s == "SIMILAR TO" || s == "NOT SIMILAR TO"
  }

  /** Operators that are written as symbols or as words of their own. */
  predicate KnownOp(op: BinOp) {
    op.Named? ==> IsPhrase(op.symbol) || (IsSymbol(op.symbol) && OpOf(op.symbol) == op)
  }

  predicate Written(t: Token) {
    match t
    case TOp(op) => KnownOp(op)
    case TWord(w) => IsName(w) && Keyword(w) == t && w != "SIMILAR"
    case _ => true
  }

  /** The character does not run on from the token. */
  predicate Parts(t: Token, c: char) {
    match t
    case TIdent(_) => c != '"'
    case TStr(_) => c != '\''
    case TLParen => true
    case TRParen => true
    case TDot => true
    case TComma => true
    case TCast => true
    case TOp(op) => if op.Named? && IsPhrase(op.symbol) then !NameChar(c) else !OpChar(c)
    case _ => !NameChar(c)
  }

  predicate Blank(s: string) {
    forall i :: 0 <= i < |s| ==> s[i] == ' '
  }

  ghost predicate Splits(text: string, gap: string, t: Token, tail: string) {
    text == gap + TokenText(t) + tail && Blank(gap) && (tail == "" || Parts(t, tail[0]))
  }

  /** The text spells the tokens, with any spaces between them that keep them apart. */
  ghost predicate Spells(text: string, ts: Tokens)
    decreases ts
  {
    match ts
    case End => Blank(text)
    case Tok(t, rest) => exists gap, tail :: Splits(text, gap, t, tail) && Spells(tail, rest)
  }

  /** Tokens with a text, and no operator right behind NOT. */
  predicate Lexable(ts: Tokens)
    decreases ts
  {
    ts.Tok? ==> Written(ts.head) && (ts.head.TNot? ==> !AtOp(ts.tail)) && Lexable(ts.tail)
  }
}
