/** Lexing any spelling of a token list gives the list back. */
module LexingCorrect {
  import opened Values
  import Strings
  import opened Database
  import opened Quoting
  import opened Rendering
  import opened Lexing
  import JsonText

  // ----- single tokens -----

  lemma {:induction false} OpRunOf(s: string, rest: string)
    requires (forall i :: 0 <= i < |s| ==> OpChar(s[i])) && (rest == "" || !OpChar(rest[0]))
    ensures OpRun(s + rest) == s
  {
    if s != "" {
      assert (s + rest)[1..] == s[1..] + rest;
      OpRunOf(s[1..], rest);
      assert [s[0]] + s[1..] == s;
    } else {
      assert s + rest == rest;
    }
  }

  lemma {:induction false} DigitsOf(s: string, rest: string)
    requires (forall i :: 0 <= i < |s| ==> Digit(s[i])) && (rest == "" || !Digit(rest[0]))
    ensures Digits(s + rest) == s
  {
    if s != "" {
      assert (s + rest)[1..] == s[1..] + rest;
      DigitsOf(s[1..], rest);
      assert [s[0]] + s[1..] == s;
    } else {
      assert s + rest == rest;
    }
  }

  lemma {:induction false} DecimalValue(n: nat)
    ensures (forall i :: 0 <= i < |Strings.Decimal(n)| ==> Digit(Strings.Decimal(n)[i])) && NatOf(Strings.Decimal(n)) == n
  {
    var d := Strings.Decimal(n);
    var last := "0123456789"[n % 10];
    assert Digit(last) && last as int - '0' as int == n % 10;
    if n < 10 {
      assert d == [last] && d[..0] == "";
      assert NatOf(d[..0]) == 0;
    } else {
      DecimalValue(n / 10);
      assert d[..|d| - 1] == Strings.Decimal(n / 10);
    }
  }

  lemma {:induction false} NatLexes(d: string, tail: string)
    requires d != "" && (forall i :: 0 <= i < |d| ==> Digit(d[i])) && (tail == "" || !Digit(tail[0]))
    ensures LexNumber(d + tail) == Some((TNum(NatOf(d)), tail))
  {
    DigitsOf(d, tail);
    assert (d + tail)[|d|..] == tail && Digit((d + tail)[0]);
  }

  lemma {:induction false} MinusLexes(d: string, tail: string)
    requires d != "" && (forall i :: 0 <= i < |d| ==> Digit(d[i])) && (tail == "" || !Digit(tail[0]))
    ensures LexNumber("-" + d + tail) == Some((TNum(0 - NatOf(d) as int), tail))
  {
    var text := "-" + d + tail;
    DigitsOf(d, tail);
    assert text[1..] == d + tail && text[1 + |d|..] == tail;
  }

  lemma {:induction false} NumberLexes(n: int, tail: string)
    requires tail == "" || !NameChar(tail[0])
    ensures LexToken(JsonText.NumberText(n) + tail) == Some((TNum(n), tail))
  {
    var d := Strings.Decimal(if n < 0 then -n else n);
    DecimalValue(if n < 0 then -n else n);
    if n < 0 {
      MinusLexes(d, tail);
      assert JsonText.NumberText(n) + tail == "-" + d + tail;
    } else {
      NatLexes(d, tail);
      assert Digit((d + tail)[0]);
    }
  }

  lemma {:induction false} WordLexes(w: string, tail: string)
    requires IsName(w) && (tail == "" || !NameChar(tail[0]))
    ensures LexToken(w + tail) == Some(Phrase(w, tail))
  {
    WordOfName(w, tail);
    assert (w + tail)[|w|..] == tail;
  }

  lemma {:induction false} SymbolLexes(op: BinOp, tail: string)
    requires IsSymbol(OpText(op)) && OpOf(OpText(op)) == op && (tail == "" || !OpChar(tail[0]))
    ensures LexToken(OpText(op) + tail) == Some((TOp(op), tail))
  {
    OpRunOf(OpText(op), tail);
    assert (OpText(op) + tail)[|OpText(op)|..] == tail;
  }

  lemma {:induction false} QuotedLexes(s: string, q: char, tail: string)
    requires (q == '"' || q == '\'') && (tail == "" || tail[0] != q)
    ensures LexToken(Quoted(s, q) + tail) == Some((if q == '"' then TIdent(s) else TStr(s), tail))
  {
    var text := Quoted(s, q) + tail;
    UnquoteDoubled(s, q, tail);
    assert text[0] == q && text[1..] == Doubled(s, q) + [q] + tail;
    assert LexToken(text) == LexQuoted(text);
  }

  lemma {:induction false} BehindWord(word: string, tail: string)
    requires IsName(word) && (tail == "" || !NameChar(tail[0]))
    ensures Behind(" " + word + tail, word) == Some(tail)
    ensures forall other :: other != word ==> Behind(" " + word + tail, other).None?
  {
    var text := " " + word + tail;
    assert text[1..] == word + tail;
    WordOfName(word, tail);
    assert text[1 + |word|..] == tail;
  }

  lemma {:induction false} LikeLexes(tail: string)
    requires tail == "" || !NameChar(tail[0])
    ensures LexToken("LIKE" + tail) == Some((TOp(Named("LIKE")), tail))
  {
    WordLexes("LIKE", tail);
  }

  lemma {:induction false} IlikeLexes(tail: string)
    requires tail == "" || !NameChar(tail[0])
    ensures LexToken("ILIKE" + tail) == Some((TOp(Named("ILIKE")), tail))
  {
    WordLexes("ILIKE", tail);
  }

  lemma {:induction false} NotLikeText(tail: string)
    ensures "NOT LIKE" + tail == "NOT" + (" " + "LIKE" + tail)
  {
  }

  lemma {:induction false} NotLikePhrase(rest: string, tail: string)
    requires (tail == "" || !NameChar(tail[0])) && rest == " " + "LIKE" + tail
    ensures Phrase("NOT", rest) == (TOp(Named("NOT LIKE")), tail)
  {
    BehindWord("LIKE", tail);
  }

  lemma {:induction false} NotLikeLexes(tail: string)
    requires tail == "" || !NameChar(tail[0])
    ensures LexToken("NOT LIKE" + tail) == Some((TOp(Named("NOT LIKE")), tail))
  {
    NotLikePhrase(" " + "LIKE" + tail, tail);
    WordLexes("NOT", " " + "LIKE" + tail);
    NotLikeText(tail);
  }

  lemma {:induction false} NotIlikeText(tail: string)
    ensures "NOT ILIKE" + tail == "NOT" + (" " + "ILIKE" + tail)
  {
  }

  lemma {:induction false} NotIlikePhrase(rest: string, tail: string)
    requires (tail == "" || !NameChar(tail[0])) && rest == " " + "ILIKE" + tail
    ensures Phrase("NOT", rest) == (TOp(Named("NOT ILIKE")), tail)
  {
    BehindWord("ILIKE", tail);
  }

  lemma {:induction false} NotIlikeLexes(tail: string)
    requires tail == "" || !NameChar(tail[0])
    ensures LexToken("NOT ILIKE" + tail) == Some((TOp(Named("NOT ILIKE")), tail))
  {
    NotIlikePhrase(" " + "ILIKE" + tail, tail);
    WordLexes("NOT", " " + "ILIKE" + tail);
    NotIlikeText(tail);
  }

  lemma {:induction false} SimilarText(tail: string)
    ensures "SIMILAR TO" + tail == "SIMILAR" + (" " + "TO" + tail)
  {
  }

  lemma {:induction false} SimilarLexes(tail: string)
    requires tail == "" || !NameChar(tail[0])
    ensures LexToken("SIMILAR TO" + tail) == Some((TOp(Named("SIMILAR TO")), tail))
  {
    BehindWord("TO", tail);
    WordLexes("SIMILAR", " " + "TO" + tail);
    SimilarText(tail);
  }

  lemma {:induction false} NotSimilarPhrase(rest: string, middle: string, tail: string)
    requires Behind(rest, "LIKE").None? && Behind(rest, "ILIKE").None?
    requires Behind(rest, "SIMILAR") == Some(middle) && Behind(middle, "TO") == Some(tail)
    ensures Phrase("NOT", rest) == (TOp(Named("NOT SIMILAR TO")), tail)
  {
  }

  lemma {:induction false} NotSimilarText(tail: string)
    ensures "NOT SIMILAR TO" + tail == "NOT" + (" " + "SIMILAR" + (" " + "TO" + tail))
  {
  }

  lemma {:induction false} NotSimilarBehind(rest: string, middle: string, tail: string)
    requires tail == "" || !NameChar(tail[0])
    requires middle == " " + "TO" + tail && rest == " " + "SIMILAR" + middle
    ensures Phrase("NOT", rest) == (TOp(Named("NOT SIMILAR TO")), tail)
  {
    BehindWord("TO", tail);
    BehindWord("SIMILAR", middle);
    NotSimilarPhrase(rest, middle, tail);
  }

  lemma {:induction false} NotSimilarLexes(tail: string)
    requires tail == "" || !NameChar(tail[0])
    ensures LexToken("NOT SIMILAR TO" + tail) == Some((TOp(Named("NOT SIMILAR TO")), tail))
  {
    var middle := " " + "TO" + tail;
    NotSimilarBehind(" " + "SIMILAR" + middle, middle, tail);
    WordLexes("NOT", " " + "SIMILAR" + middle);
    NotSimilarText(tail);
  }

  lemma {:induction false} PhraseLexes(s: string, tail: string)
    requires IsPhrase(s) && (tail == "" || !NameChar(tail[0]))
    ensures LexToken(s + tail) == Some((TOp(Named(s)), tail))
  {
    LikeLexes(tail);
    IlikeLexes(tail);
    NotLikeLexes(tail);
    NotIlikeLexes(tail);
    SimilarLexes(tail);
    NotSimilarLexes(tail);
  }

  lemma {:induction false} OpLexes(op: BinOp, tail: string)
    requires KnownOp(op) && (tail == "" || Parts(TOp(op), tail[0]))
    ensures LexToken(OpText(op) + tail) == Some((TOp(op), tail))
  {
    if op.Named? && IsPhrase(op.symbol) {
      PhraseLexes(op.symbol, tail);
    } else {
      SymbolLexes(op, tail);
    }
  }

  // ----- any token -----

  /** The tokens that are words of their own. */
  predicate IsWord(t: Token) {
    t.TAnd? || t.TOr? || t.TNot? || t.TTrue? || t.TFalse? || t.TNull? || t.TIs? || t.TIn? || t.TExists? || t.TSelect? || t.TFrom? || t.TAs? ||
    t.TWhere? || t.TLimit? || t.TJson? || t.TWord?
  }

  predicate NoOperatorWord(w: string) {
    w != "LIKE" && w != "ILIKE" && w != "SIMILAR"
  }

  lemma {:induction false} WordText(t: Token)
    requires IsWord(t) && Written(t)
    ensures IsName(TokenText(t)) && Keyword(TokenText(t)) == t && NoOperatorWord(TokenText(t)) && (TokenText(t) == "NOT" <==> t.TNot?)
  {
    if t.TAnd? || t.TOr? || t.TNot? || t.TTrue? || t.TFalse? {
      LogicText(t);
    } else if t.TNull? || t.TIs? || t.TIn? || t.TExists? || t.TSelect? {
      TestText(t);
    } else if !t.TWord? {
      ClauseText(t);
    }
  }

  lemma {:induction false} LogicText(t: Token)
    requires t.TAnd? || t.TOr? || t.TNot? || t.TTrue? || t.TFalse?
    ensures IsName(TokenText(t)) && Keyword(TokenText(t)) == t && NoOperatorWord(TokenText(t)) && (TokenText(t) == "NOT" <==> t.TNot?)
  {
  }

  lemma {:induction false} TestText(t: Token)
    requires t.TNull? || t.TIs? || t.TIn? || t.TExists? || t.TSelect?
    ensures IsName(TokenText(t)) && Keyword(TokenText(t)) == t && NoOperatorWord(TokenText(t)) && TokenText(t) != "NOT"
  {
  }

  lemma {:induction false} ClauseText(t: Token)
    requires t.TFrom? || t.TAs? || t.TWhere? || t.TLimit? || t.TJson?
    ensures IsName(TokenText(t)) && Keyword(TokenText(t)) == t && NoOperatorWord(TokenText(t)) && TokenText(t) != "NOT"
  {
  }

  /** NOT is not the beginning of an operator here. */
  predicate NoPhrase(tail: string) {
    Behind(tail, "LIKE").None? && Behind(tail, "ILIKE").None? && Behind(tail, "SIMILAR").None?
  }

  lemma {:induction false} TokenLexes(t: Token, tail: string)
    requires Written(t) && (tail == "" || Parts(t, tail[0])) && (t.TNot? ==> NoPhrase(tail))
    ensures LexToken(TokenText(t) + tail) == Some((t, tail))
  {
    if IsWord(t) {
      WordText(t);
      WordLexes(TokenText(t), tail);
    } else if t.TIdent? {
      QuotedLexes(t.name, '"', tail);
    } else if t.TStr? {
      QuotedLexes(t.s, '\'', tail);
    } else if t.TNum? {
      NumberLexes(t.n, tail);
    } else if t.TOp? {
      OpLexes(t.op, tail);
    } else {
      PunctuationLexes(t, TokenText(t), tail);
    }
  }

  lemma {:induction false} PunctuationLexes(t: Token, p: string, tail: string)
    requires p == TokenText(t) && (t.TLParen? || t.TRParen? || t.TDot? || t.TComma? || t.TCast?)
    ensures LexToken(p + tail) == Some((t, tail))
  {
    assert (p + tail)[|p|..] == tail && (p + tail)[0] == p[0];
    if t.TCast? {
      assert (p + tail)[1] == ':';
    }
  }

  // ----- whole texts -----

  lemma {:induction false} SkipBlank(gap: string, text: string)
    requires Blank(gap)
    ensures Lexed(gap + text) == Lexed(text)
  {
    if gap == "" {
      assert gap + text == text;
    } else {
      assert (gap + text)[1..] == gap[1..] + text;
      SkipBlank(gap[1..], text);
    }
  }

  /** Only words and operators begin like a word. */
  lemma {:induction false} TextStarts(t: Token)
    requires Written(t)
    ensures TokenText(t) != "" && TokenText(t)[0] != ' ' && (!IsWord(t) && !t.TOp? ==> !NameStart(TokenText(t)[0]))
  {
    if IsWord(t) {
      WordText(t);
    } else if t.TNum? {
      DecimalValue(if t.n < 0 then -t.n else t.n);
      assert Digit(Strings.Decimal(if t.n < 0 then -t.n else t.n)[0]);
    } else if t.TOp? {
      OpStarts(t.op);
    }
  }

  lemma {:induction false} OpStarts(op: BinOp)
    requires KnownOp(op)
    ensures OpText(op) != "" && OpText(op)[0] != ' '
  {
  }

  /** Behind NOT comes no word that would make it an operator. */
  lemma {:induction false} NotStands(tail: string, ts: Tokens)
    requires Lexable(ts) && !AtOp(ts) && Spells(tail, ts)
    ensures NoPhrase(tail)
  {
    if tail != "" && tail[0] == ' ' {
      if ts.Tok? {
        var gap, rest :| Splits(tail, gap, ts.head, rest) && Spells(rest, ts.tail);
        TextStarts(ts.head);
        if IsWord(ts.head) {
          WordText(ts.head);
        }
        FirstWord(tail, gap, TokenText(ts.head), rest);
      } else {
        assert tail[1..] == "" || tail[1..][0] == ' ';
      }
    }
  }

  lemma {:induction false} FirstWord(text: string, gap: string, w: string, tail: string)
    requires text == gap + w + tail && Blank(gap) && w != "" && text[0] == ' ' && w[0] != ' '
    requires NameStart(w[0]) ==> IsName(w) && NoOperatorWord(w) && (tail == "" || !NameChar(tail[0]))
    ensures NoPhrase(text)
  {
    assert (gap + w + tail)[|gap|] == w[0];
    if |gap| == 1 {
      assert text[1..] == w + tail;
      if NameStart(w[0]) {
        WordOfName(w, tail);
      } else {
        assert Word(text[1..]) != "" ==> Word(text[1..])[0] == w[0];
      }
    } else {
      assert text[1..][0] == gap[1] == ' ';
    }
  }

  lemma {:induction false} LexedStep(text: string, t: Token, tail: string, rest: Tokens)
    requires text != "" && text[0] != ' ' && LexToken(text) == Some((t, tail)) && Lexed(tail) == Some(rest)
    ensures Lexed(text) == Some(Tok(t, rest))
  {
  }

  lemma {:induction false} Regroup(text: string, gap: string, w: string, tail: string)
    requires text == gap + w + tail && w != "" && w[0] != ' '
    ensures text == gap + (w + tail) && w + tail != "" && (w + tail)[0] != ' '
  {
  }

  lemma {:induction false} SpellStep(text: string, gap: string, from: string, t: Token, tail: string, rest: Tokens)
    requires text == gap + from && Blank(gap) && from != "" && from[0] != ' '
    requires LexToken(from) == Some((t, tail)) && Lexed(tail) == Some(rest)
    ensures Lexed(text) == Some(Tok(t, rest))
  {
    LexedStep(from, t, tail, rest);
    SkipBlank(gap, from);
  }

  /** Main result: lexing inverts every spelling. */
  lemma {:induction false} SpellingLexes(text: string, ts: Tokens)
    requires Lexable(ts) && Spells(text, ts)
    ensures Lexed(text) == Some(ts)
    decreases ts
  {
    if ts.End? {
      assert text + "" == text;
      SkipBlank(text, "");
    } else {
      var gap, tail :| Splits(text, gap, ts.head, tail) && Spells(tail, ts.tail);
      if ts.head.TNot? {
        NotStands(tail, ts.tail);
      }
      TokenLexes(ts.head, tail);
      TextStarts(ts.head);
      SpellingLexes(tail, ts.tail);
      Regroup(text, gap, TokenText(ts.head), tail);
      SpellStep(text, gap, TokenText(ts.head) + tail, ts.head, tail, ts.tail);
    }
  }

  // ----- one space before every token is a spelling -----

  function Spaced(ts: Tokens): string {
    if ts.End? then "" else " " + TokenText(ts.head) + Spaced(ts.tail)
  }

  lemma {:induction false} SpacedSpells(ts: Tokens)
    requires Lexable(ts)
    ensures Spells(Spaced(ts), ts)
    decreases ts
  {
    if ts.Tok? {
      SpacedSpells(ts.tail);
      assert Splits(Spaced(ts), " ", ts.head, Spaced(ts.tail));
    }
  }
}
