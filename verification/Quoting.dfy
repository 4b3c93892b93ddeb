/** `quote_lit` and `quote_ident` against the lexical rules of SQL for character
    string literals and delimited identifiers (sections 5.2 and 5.3 of
    ISO/IEC 9075-2): a quote is ended by a quote that is not doubled. Unquoted
    names are read up to the first character that cannot be part of one. */
module Quoting {
  import opened Values

  /** `s.replace(q, qq)` */
  function Doubled(s: string, q: char): string {
    if s == "" then "" else (if s[0] == q then [q, q] else [s[0]]) + Doubled(s[1..], q)
  }

  function Quoted(s: string, q: char): string {
    [q] + Doubled(s, q) + [q]
  }

  function QuoteLit(s: string): string {
    Quoted(s, '\'')
  }

  function QuoteIdent(s: string): string {
    Quoted(s, '"')
  }

  /** The lexer after an opening quote: the content and the text behind the
      closing quote. */
  function Unquote(text: string, q: char): Option<(string, string)> {
    if text == "" then None
    else if text[0] != q then
      var rest := Unquote(text[1..], q);
      if rest.None? then None else Some(([text[0]] + rest.value.0, rest.value.1))
    else if |text| >= 2 && text[1] == q then
      var rest := Unquote(text[2..], q);
      if rest.None? then None else Some(([q] + rest.value.0, rest.value.1))
    else Some(("", text[1..]))
  }

  function Lex(text: string, q: char): Option<(string, string)> {
    if text == "" || text[0] != q then None else Unquote(text[1..], q)
  }

  lemma {:induction false} UnquoteDoubled(s: string, q: char, rest: string)
    requires rest == "" || rest[0] != q
    ensures Unquote(Doubled(s, q) + [q] + rest, q) == Some((s, rest))
  {
    var text := Doubled(s, q) + [q] + rest;
    if s == "" {
      assert text == [q] + rest;
    } else {
      UnquoteDoubled(s[1..], q, rest);
      var tail := Doubled(s[1..], q) + [q] + rest;
      if s[0] == q {
        assert text == [q, q] + tail;
        assert text[2..] == tail;
      } else {
        assert text == [s[0]] + tail;
        assert text[1..] == tail;
      }
      assert [s[0]] + s[1..] == s;
    }
  }

  /** Whatever text follows, the lexer recovers exactly the quoted string and
      hands back exactly that text. */
  lemma QuotedReadsBack(s: string, q: char, rest: string)
    requires rest == "" || rest[0] != q
    ensures Lex(Quoted(s, q) + rest, q) == Some((s, rest))
  {
    UnquoteDoubled(s, q, rest);
    assert (Quoted(s, q) + rest)[1..] == Doubled(s, q) + [q] + rest;
  }

  /** In particular the literals and identifiers the generator writes. */
  lemma WrittenTextReadsBack(s: string, rest: string)
    ensures rest == "" || rest[0] != '\'' ==> Lex(QuoteLit(s) + rest, '\'') == Some((s, rest))
    ensures rest == "" || rest[0] != '"' ==> Lex(QuoteIdent(s) + rest, '"') == Some((s, rest))
  {
    if rest == "" || rest[0] != '\'' {
      QuotedReadsBack(s, '\'', rest);
    }
    if rest == "" || rest[0] != '"' {
      QuotedReadsBack(s, '"', rest);
    }
  }

  /** The side condition is needed: followed by another quote, the literal runs on. */
  lemma AdjacentQuoteRunsOn(s: string, q: char, rest: string)
    requires rest != "" && rest[0] == q
    ensures Lex(Quoted(s, q) + rest, q) != Some((s, rest))
  {
    var tail := Doubled(s, q) + [q] + rest;
    assert (Quoted(s, q) + rest)[1..] == tail;
    RunsOn(s, q, rest);
  }

  lemma {:induction false} UnquoteLength(text: string, q: char)
    ensures Unquote(text, q).Some? ==> |Unquote(text, q).value.1| < |text|
  {
    if text != "" {
      if text[0] != q { UnquoteLength(text[1..], q); }
      else if |text| >= 2 && text[1] == q { UnquoteLength(text[2..], q); }
    }
  }

  lemma {:induction false} RunsOn(s: string, q: char, rest: string)
    requires rest != "" && rest[0] == q
    ensures
      var r := Unquote(Doubled(s, q) + [q] + rest, q);
      r.None? || |r.value.1| < |rest|
  {
    var text := Doubled(s, q) + [q] + rest;
    if s == "" {
      assert text == [q] + rest;
      assert text[2..] == rest[1..];
      UnquoteLength(rest[1..], q);
    } else {
      RunsOn(s[1..], q, rest);
      var tail := Doubled(s[1..], q) + [q] + rest;
      if s[0] == q {
        assert text == [q, q] + tail;
        assert text[2..] == tail;
      } else {
        assert text == [s[0]] + tail;
        assert text[1..] == tail;
      }
    }
  }

  // ----- unquoted names -----

  predicate NameStart(c: char) {
    'a' <= c <= 'z' || 'A' <= c <= 'Z' || c == '_'
  }

  predicate NameChar(c: char) {
    NameStart(c) || '0' <= c <= '9' || c == '$'
  }

  /** The longest prefix that can be part of a name. */
  function Word(text: string): (w: string)
    ensures |w| <= |text| && w == text[..|w|] && (forall i :: 0 <= i < |w| ==> NameChar(w[i]))
    ensures |w| < |text| ==> !NameChar(text[|w|])
  {
    if text == "" || !NameChar(text[0]) then "" else [text[0]] + Word(text[1..])
  }

  lemma {:induction false} WordOfName(s: string, rest: string)
    requires (forall i :: 0 <= i < |s| ==> NameChar(s[i])) && (rest == "" || !NameChar(rest[0]))
    ensures Word(s + rest) == s
  {
    if s != "" {
      assert (s + rest)[1..] == s[1..] + rest;
      WordOfName(s[1..], rest);
      assert [s[0]] + s[1..] == s;
    } else {
      assert s + rest == rest;
    }
  }
}
