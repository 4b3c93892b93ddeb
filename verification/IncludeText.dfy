/** Which YAML nodes are includes, said of their text. */
module IncludeText {
  import opened Strings
  import opened Loader

  predicate Bangs(s: string) {
    forall i :: 0 <= i < |s| ==> s[i] == '!'
  }

  /** `!include`, with any number of exclamation marks. */
  ghost predicate IncludeTag(tag: string) {
    exists bangs :: Bangs(bangs) && tag == bangs + "include"
  }

  lemma {:induction false} StripExact(tag: string)
    ensures StripBangs(tag) == "include" <==> IncludeTag(tag)
  {
    if tag != [] && tag[0] == '!' {
      StripExact(tag[1..]);
      if IncludeTag(tag[1..]) {
        var bangs :| Bangs(bangs) && tag[1..] == bangs + "include";
        assert tag == (['!'] + bangs) + "include";
      }
      if IncludeTag(tag) {
        MoreBangs(tag);
      }
    } else {
      NoBangs(tag);
    }
  }

  lemma {:induction false} NoBangs(tag: string)
    requires tag == [] || tag[0] != '!'
    ensures IncludeTag(tag) <==> tag == "include"
  {
    assert Bangs("") && "" + "include" == "include";
    if IncludeTag(tag) {
      var bangs :| Bangs(bangs) && tag == bangs + "include";
      assert |tag| == |bangs| + 7 && tag[..|bangs|] == bangs;
    }
  }

  lemma {:induction false} MoreBangs(tag: string)
    requires tag != [] && tag[0] == '!' && IncludeTag(tag)
    ensures IncludeTag(tag[1..])
  {
    var bangs :| Bangs(bangs) && tag == bangs + "include";
    assert bangs != "";
    assert Bangs(bangs[1..]) && tag[1..] == bangs[1..] + "include";
  }

  // ----- trimming -----

  /** What trimming leaves has nothing blank at its ends. */
  predicate Trimmed(s: string) {
    s == "" || Solid(s)
  }

  lemma {:induction false} TrimEndSplits(s: string) returns (after: string)
    ensures Blank(after) && s == TrimEnd(s) + after && (TrimEnd(s) == "" || !IsSpace(TrimEnd(s)[|TrimEnd(s)| - 1]))
  {
    if s != [] && IsSpace(s[|s| - 1]) {
      after := TrimEndSplits(s[..|s| - 1]);
      after := after + [s[|s| - 1]];
    } else {
      after := "";
    }
  }

  lemma {:induction false} TrimSplits(s: string) returns (before: string, after: string)
    ensures Blank(before) && Blank(after) && s == before + Trim(s) + after && Trimmed(Trim(s))
  {
    if s != [] && IsSpace(s[0]) {
      before, after := TrimSplits(s[1..]);
      before := [s[0]] + before;
    } else {
      before := "";
      after := TrimEndSplits(s);
      assert TrimEnd(s) != "" ==> TrimEnd(s)[0] == s[0];
    }
  }

  lemma {:induction false} BlankTrims(s: string)
    requires Blank(s)
    ensures Trim(s) == ""
  {
    if s != "" {
      BlankTrims(s[1..]);
    }
  }

  /** The quoted form: the word, one space, and the name between blanks. */
  ghost predicate Quoted(s: string, rel: string) {
    exists before, after :: Blank(before) && Blank(after) && Trimmed(rel) && s == "!include " + (before + rel + after)
  }

  lemma {:induction false} QuotedExact(s: string, rel: string)
    ensures Quoted(s, rel) <==> "!include " <= s && Trim(s[9..]) == rel
  {
    if Quoted(s, rel) {
      var before, after :| Blank(before) && Blank(after) && Trimmed(rel) && s == "!include " + (before + rel + after);
      assert s[9..] == before + rel + after;
      if rel == "" {
        assert before + rel + after == before + after;
        BlankTrims(before + after);
      } else {
        TrimPadded(before, rel, after);
      }
    }
    if "!include " <= s && Trim(s[9..]) == rel {
      var before, after := TrimSplits(s[9..]);
      assert s == "!include " + s[9..];
    }
  }

  /** Main result: a node is an include of a name exactly when it is the quoted text
      or the tag with that name, and a bad one exactly when the tag has no text. */
  lemma {:induction false} IncludeExact(y: Yaml, rel: string)
    ensures KindOf(y) == Include(rel) <==> (y.Str? && Quoted(y.s, rel)) || (y.Tagged? && IncludeTag(y.tag) && y.v == Str(rel))
    ensures KindOf(y) == Bad <==> y.Tagged? && IncludeTag(y.tag) && !y.v.Str?
  {
    if y.Str? {
      QuotedExact(y.s, rel);
    } else if y.Tagged? {
      StripExact(y.tag);
    }
  }
}
