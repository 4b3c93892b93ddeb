/** Reading inverts writing, for every JSON value. */
module JsonRoundTrip {
  import opened Values
  import opened Strings
  import opened JsonText
  import opened Lexing
  import opened JsonReading
  import LexingCorrect

  /** A JSON value: nothing in it stands for a failed evaluation. */
  predicate IsJson(v: Value) {
    match v
    case Arr(items) => forall i :: 0 <= i < |items| ==> IsJson(items[i])
    case Obj(fields) => forall i :: 0 <= i < |fields| ==> IsJson(fields[i].1)
    case Error => false
    case _ => true
  }

  // ----- strings -----

  lemma {:induction false} HexReads(n: nat)
    requires n < 16
    ensures HexValue(HexDigit(n)) == Some(n)
  {
  }

  lemma {:induction false} PlainReads(c: char, tail: string)
    requires c != '"' && c != '\\' && c >= ' ' && ReadChars(tail).Some?
    ensures ReadChars([c] + tail) == Some(([c] + ReadChars(tail).value.0, ReadChars(tail).value.1))
  {
    assert ([c] + tail)[1..] == tail;
  }

  lemma {:induction false} PairReads(e: char, c: char, tail: string)
    requires Unescaped(e) == Some(c) && ReadChars(tail).Some?
    ensures ReadChars(['\\', e] + tail) == Some(([c] + ReadChars(tail).value.0, ReadChars(tail).value.1))
  {
    assert (['\\', e] + tail)[2..] == tail;
  }

  lemma {:induction false} ControlReads(c: char, tail: string)
    requires c < ' ' && ReadChars(tail).Some?
    ensures ReadChars("\\u00" + [HexDigit(c as int / 16), HexDigit(c as int % 16)] + tail) ==
            Some(([c] + ReadChars(tail).value.0, ReadChars(tail).value.1))
  {
    HexReads(c as int / 16);
    HexReads(c as int % 16);
    var hex := [HexDigit(c as int / 16), HexDigit(c as int % 16)];
    var text := "\\u00" + hex + tail;
    assert text[2..6] == ['0', '0'] + hex && text[6..] == tail;
    assert CodeUnit(text[2..6]) == Some(c);
  }

  lemma {:induction false} EscapedReads(c: char, tail: string)
    requires ReadChars(tail).Some?
    ensures ReadChars(Escaped(c) + tail) == Some(([c] + ReadChars(tail).value.0, ReadChars(tail).value.1))
  {
    if c == '"' || c == '\\' {
      PairReads(c, c, tail);
    } else if c == '\n' {
      PairReads('n', c, tail);
    } else if c == '\r' {
      PairReads('r', c, tail);
    } else if c == '\t' {
      PairReads('t', c, tail);
    } else if c as int == 8 {
      PairReads('b', c, tail);
    } else if c as int == 12 {
      PairReads('f', c, tail);
    } else if c < ' ' {
      ControlReads(c, tail);
    } else {
      PlainReads(c, tail);
    }
  }

  lemma {:induction false} CharsRead(s: string, rest: string)
    ensures ReadChars(EscapedText(s) + "\"" + rest) == Some((s, rest))
  {
    if s == "" {
      assert EscapedText(s) + "\"" + rest == "\"" + rest;
    } else {
      var tail := EscapedText(s[1..]) + "\"" + rest;
      CharsRead(s[1..], rest);
      EscapedReads(s[0], tail);
      assert EscapedText(s) + "\"" + rest == Escaped(s[0]) + tail;
      assert [s[0]] + s[1..] == s;
    }
  }

  // ----- numbers -----

  lemma {:induction false} NatReads(n: nat, rest: string)
    requires rest == "" || !Digit(rest[0])
    ensures Decimal(n) != "" && Digit(Decimal(n)[0])
    ensures ReadNumber(Decimal(n) + rest) == Some((Num(n), rest))
  {
    LexingCorrect.DecimalValue(n);
    LexingCorrect.DigitsOf(Decimal(n), rest);
    assert (Decimal(n) + rest)[|Decimal(n)|..] == rest;
    assert Digit((Decimal(n) + rest)[0]);
  }

  lemma {:induction false} MinusReads(n: nat, rest: string)
    requires rest == "" || !Digit(rest[0])
    ensures ReadNumber("-" + Decimal(n) + rest) == Some((Num(0 - n as int), rest))
  {
    var text := "-" + Decimal(n) + rest;
    LexingCorrect.DecimalValue(n);
    LexingCorrect.DigitsOf(Decimal(n), rest);
    assert text[1..] == Decimal(n) + rest && text[1 + |Decimal(n)|..] == rest;
  }

  lemma {:induction false} NumberReads(n: int, rest: string)
    requires rest == "" || !Digit(rest[0])
    ensures ReadValue(NumberText(n) + rest) == Some((Num(n), rest))
  {
    if n < 0 {
      MinusReads(-n, rest);
      assert (NumberText(n) + rest)[0] == '-';
    } else {
      NatReads(n, rest);
      assert Digit((NumberText(n) + rest)[0]);
    }
  }

  // ----- lists -----

  /** Both groupings of three texts with a separator between them. */
  lemma Regroup(a: string, b: string, c: string)
    ensures (a + "," + b) + "," + c == a + "," + (b + "," + c)
  {
  }

  lemma {:induction false} ItemsSnoc(items: seq<Value>, last: Value)
    requires items != []
    ensures SerializedItems(items + [last]) == SerializedItems(items) + "," + Serialized(last)
  {
    assert (items + [last])[..|items|] == items;
  }

  lemma {:induction false} ItemsCons(items: seq<Value>)
    requires |items| >= 2
    ensures SerializedItems(items) == Serialized(items[0]) + "," + SerializedItems(items[1..])
  {
    var n := |items| - 1;
    if n > 1 {
      ItemsCons(items[..n]);
      ItemsSnoc(items[1..n], items[n]);
      assert items[..n][1..] == items[1..n] && items[1..] == items[1..n] + [items[n]];
      Regroup(Serialized(items[0]), SerializedItems(items[1..n]), Serialized(items[n]));
    } else {
      assert items[..1] == [items[0]] && items[1..] == [items[1]];
    }
  }

  lemma {:induction false} FieldsSnoc(fields: seq<(string, Value)>, last: (string, Value))
    requires fields != []
    ensures SerializedFields(fields + [last]) == SerializedFields(fields) + "," + SerializedField(last)
  {
    assert (fields + [last])[..|fields|] == fields;
  }

  lemma {:induction false} FieldsCons(fields: seq<(string, Value)>)
    requires |fields| >= 2
    ensures SerializedFields(fields) == SerializedField(fields[0]) + "," + SerializedFields(fields[1..])
  {
    var n := |fields| - 1;
    if n > 1 {
      FieldsCons(fields[..n]);
      FieldsSnoc(fields[1..n], fields[n]);
      assert fields[..n][1..] == fields[1..n] && fields[1..] == fields[1..n] + [fields[n]];
      Regroup(SerializedField(fields[0]), SerializedFields(fields[1..n]), SerializedField(fields[n]));
    } else {
      assert fields[..1] == [fields[0]] && fields[1..] == [fields[1]];
    }
  }

  /** No value begins like the end of a list. */
  lemma {:induction false} Starts(v: Value)
    requires IsJson(v)
    ensures Serialized(v) != "" && Serialized(v)[0] != ']' && Serialized(v)[0] != '}'
  {
    if v.Num? {
      LexingCorrect.DecimalValue(if v.n < 0 then -v.n else v.n);
      assert Digit(Decimal(if v.n < 0 then -v.n else v.n)[0]);
    }
  }

  // ----- values -----

  lemma {:induction false} TextReads(s: string, rest: string)
    ensures ReadValue(StringText(s) + rest) == Some((Text(s), rest))
  {
    CharsRead(s, rest);
    assert (StringText(s) + rest)[1..] == EscapedText(s) + "\"" + rest;
  }

  lemma {:induction false} ArrayReads(items: seq<Value>, body: string, rest: string)
    requires items != [] && body != "" && body[0] != ']' && ReadItems(body + "]" + rest) == Some((items, rest))
    ensures ReadValue("[" + body + "]" + rest) == Some((Arr(items), rest))
  {
    var text := "[" + body + "]" + rest;
    assert text[1..] == body + "]" + rest && text[1] == body[0];
  }

  lemma {:induction false} ObjectReads(fields: seq<(string, Value)>, body: string, rest: string)
    requires fields != [] && body != "" && body[0] != '}' && ReadFields(body + "}" + rest) == Some((fields, rest))
    ensures ReadValue("{" + body + "}" + rest) == Some((Obj(fields), rest))
  {
    var text := "{" + body + "}" + rest;
    assert text[1..] == body + "}" + rest && text[1] == body[0];
  }

  lemma {:induction false} WordReads(v: Value, rest: string)
    requires v.Null? || v.Bool?
    ensures ReadValue(Serialized(v) + rest) == Some((v, rest))
  {
    var w := Serialized(v);
    assert (w + rest)[|w|..] == rest && w <= w + rest;
  }

  /** Main result: before any text that does not go on with a digit, a written value
      is read as itself, and that text is left over. */
  lemma {:induction false} WrittenReads(v: Value, rest: string)
    requires IsJson(v) && (rest == "" || !Digit(rest[0]))
    ensures ReadValue(Serialized(v) + rest) == Some((v, rest))
    decreases v, 2
  {
    match v
    case Num(n) => NumberReads(n, rest);
    case Text(s) => TextReads(s, rest);
    case Arr(items) =>
      if items == [] {
        assert "[" + SerializedItems(items) + "]" + rest == "[]" + rest && ("[]" + rest)[2..] == rest;
      } else {
        ItemsRead(items, rest);
        ItemsStart(items);
        ArrayReads(items, SerializedItems(items), rest);
        assert Serialized(v) + rest == "[" + SerializedItems(items) + "]" + rest;
      }
    case Obj(fields) =>
      if fields == [] {
        assert "{" + SerializedFields(fields) + "}" + rest == "{}" + rest && ("{}" + rest)[2..] == rest;
      } else {
        FieldsRead(fields, rest);
        FieldsStart(fields);
        ObjectReads(fields, SerializedFields(fields), rest);
        assert Serialized(v) + rest == "{" + SerializedFields(fields) + "}" + rest;
      }
    case Null => WordReads(v, rest);
    case Bool(_) => WordReads(v, rest);
  }

  // ----- one step of reading a list -----

  lemma {:induction false} Assoc(a: string, b: string, c: string)
    ensures a + b + c == a + (b + c)
  {
  }

  lemma {:induction false} LastItemReads(text: string, v: Value, rest: string)
    requires ReadValue(text) == Some((v, "]" + rest))
    ensures ReadItems(text) == Some(([v], rest))
  {
    assert ("]" + rest)[1..] == rest;
  }

  lemma {:induction false} MoreItemsRead(text: string, v: Value, tail: string, items: seq<Value>, rest: string)
    requires ReadValue(text) == Some((v, "," + tail)) && ReadItems(tail) == Some((items, rest))
    ensures ReadItems(text) == Some(([v] + items, rest))
  {
    assert ("," + tail)[1..] == tail;
  }

  lemma {:induction false} LastFieldReads(text: string, field: (string, Value), rest: string)
    requires ReadField(text) == Some((field, "}" + rest))
    ensures ReadFields(text) == Some(([field], rest))
  {
    assert ("}" + rest)[1..] == rest;
  }

  lemma {:induction false} MoreFieldsRead(text: string, field: (string, Value), tail: string, fields: seq<(string, Value)>, rest: string)
    requires ReadField(text) == Some((field, "," + tail)) && ReadFields(tail) == Some((fields, rest))
    ensures ReadFields(text) == Some(([field] + fields, rest))
  {
    assert ("," + tail)[1..] == tail;
  }

  lemma {:induction false} NamedReads(text: string, name: string, value: string, v: Value, rest: string)
    requires text != "" && text[0] == '"' && ReadChars(text[1..]) == Some((name, ":" + value)) && ReadValue(value) == Some((v, rest))
    ensures ReadField(text) == Some(((name, v), rest))
  {
    assert (":" + value)[1..] == value;
  }

  lemma {:induction false} ListText(first: string, more: string, end: string, rest: string)
    ensures first + "," + more + end + rest == first + ("," + (more + end + rest))
  {
  }

  lemma {:induction false} OneItem(first: string, v: Value, rest: string)
    requires ReadValue(first + ("]" + rest)) == Some((v, "]" + rest))
    ensures ReadItems(first + "]" + rest) == Some(([v], rest))
  {
    Assoc(first, "]", rest);
    LastItemReads(first + "]" + rest, v, rest);
  }

  lemma {:induction false} PrependItem(first: string, more: string, v: Value, items: seq<Value>, rest: string)
    requires ReadValue(first + ("," + (more + "]" + rest))) == Some((v, "," + (more + "]" + rest)))
    requires ReadItems(more + "]" + rest) == Some((items, rest))
    ensures ReadItems(first + "," + more + "]" + rest) == Some(([v] + items, rest))
  {
    ListText(first, more, "]", rest);
    MoreItemsRead(first + ("," + (more + "]" + rest)), v, more + "]" + rest, items, rest);
  }

  lemma {:induction false} OneField(first: string, field: (string, Value), rest: string)
    requires ReadField(first + ("}" + rest)) == Some((field, "}" + rest))
    ensures ReadFields(first + "}" + rest) == Some(([field], rest))
  {
    Assoc(first, "}", rest);
    LastFieldReads(first + "}" + rest, field, rest);
  }

  lemma {:induction false} PrependField(first: string, more: string, field: (string, Value), fields: seq<(string, Value)>, rest: string)
    requires ReadField(first + ("," + (more + "}" + rest))) == Some((field, "," + (more + "}" + rest)))
    requires ReadFields(more + "}" + rest) == Some((fields, rest))
    ensures ReadFields(first + "," + more + "}" + rest) == Some(([field] + fields, rest))
  {
    ListText(first, more, "}", rest);
    MoreFieldsRead(first + ("," + (more + "}" + rest)), field, more + "}" + rest, fields, rest);
  }

  // ----- whole lists -----

  /** Neither does a list of values. */
  lemma {:induction false} ItemsStart(items: seq<Value>)
    requires items != [] && IsJson(items[0])
    ensures SerializedItems(items) != "" && SerializedItems(items)[0] != ']'
  {
    Starts(items[0]);
    if |items| > 1 {
      ItemsCons(items);
    }
  }

  lemma {:induction false} OnlyItem(v: Value, rest: string)
    requires ReadValue(Serialized(v) + ("]" + rest)) == Some((v, "]" + rest))
    ensures ReadItems(SerializedItems([v]) + "]" + rest) == Some(([v], rest))
  {
    OneItem(Serialized(v), v, rest);
  }

  lemma {:induction false} FirstItem(items: seq<Value>, more: string, rest: string)
    requires |items| >= 2 && more == SerializedItems(items[1..])
    requires ReadValue(Serialized(items[0]) + ("," + (more + "]" + rest))) == Some((items[0], "," + (more + "]" + rest)))
    requires ReadItems(more + "]" + rest) == Some((items[1..], rest))
    ensures ReadItems(SerializedItems(items) + "]" + rest) == Some((items, rest))
  {
    ItemsCons(items);
    PrependItem(Serialized(items[0]), more, items[0], items[1..], rest);
    assert [items[0]] + items[1..] == items;
  }

  lemma {:induction false} ItemsRead(items: seq<Value>, rest: string)
    requires items != [] && forall i :: 0 <= i < |items| ==> IsJson(items[i])
    ensures ReadItems(SerializedItems(items) + "]" + rest) == Some((items, rest))
    decreases items, 1
  {
    if |items| == 1 {
      WrittenReads(items[0], "]" + rest);
      OnlyItem(items[0], rest);
      assert items == [items[0]];
    } else {
      var more := SerializedItems(items[1..]);
      ItemsRead(items[1..], rest);
      WrittenReads(items[0], "," + (more + "]" + rest));
      FirstItem(items, more, rest);
    }
  }

  lemma {:induction false} FieldText(name: string, v: string, rest: string)
    ensures
      var text := StringText(name) + ":" + v + rest;
      text != "" && text[0] == '"' && text[1..] == EscapedText(name) + "\"" + (":" + (v + rest))
  {
    var text := StringText(name) + ":" + v + rest;
    assert text == "\"" + (EscapedText(name) + "\"" + (":" + (v + rest)));
  }

  lemma {:induction false} FieldReads(field: (string, Value), rest: string)
    requires IsJson(field.1) && (rest == "" || !Digit(rest[0]))
    ensures ReadField(SerializedField(field) + rest) == Some((field, rest))
    decreases field, 0
  {
    var (name, v) := field;
    FieldText(name, Serialized(v), rest);
    CharsRead(name, ":" + (Serialized(v) + rest));
    WrittenReads(v, rest);
    NamedReads(SerializedField(field) + rest, name, Serialized(v) + rest, v, rest);
  }

  lemma {:induction false} FieldsStart(fields: seq<(string, Value)>)
    requires fields != []
    ensures SerializedFields(fields) != "" && SerializedFields(fields)[0] != '}'
  {
    if |fields| > 1 {
      FieldsCons(fields);
    }
  }

  lemma {:induction false} OnlyField(field: (string, Value), rest: string)
    requires ReadField(SerializedField(field) + ("}" + rest)) == Some((field, "}" + rest))
    ensures ReadFields(SerializedFields([field]) + "}" + rest) == Some(([field], rest))
  {
    OneField(SerializedField(field), field, rest);
  }

  lemma {:induction false} FirstField(fields: seq<(string, Value)>, more: string, rest: string)
    requires |fields| >= 2 && more == SerializedFields(fields[1..])
    requires ReadField(SerializedField(fields[0]) + ("," + (more + "}" + rest))) == Some((fields[0], "," + (more + "}" + rest)))
    requires ReadFields(more + "}" + rest) == Some((fields[1..], rest))
    ensures ReadFields(SerializedFields(fields) + "}" + rest) == Some((fields, rest))
  {
    FieldsCons(fields);
    PrependField(SerializedField(fields[0]), more, fields[0], fields[1..], rest);
    assert [fields[0]] + fields[1..] == fields;
  }

  lemma {:induction false} FieldsRead(fields: seq<(string, Value)>, rest: string)
    requires fields != [] && forall i :: 0 <= i < |fields| ==> IsJson(fields[i].1)
    ensures ReadFields(SerializedFields(fields) + "}" + rest) == Some((fields, rest))
    decreases fields, 1
  {
    if |fields| == 1 {
      FieldReads(fields[0], "}" + rest);
      OnlyField(fields[0], rest);
      assert fields == [fields[0]];
    } else {
      var more := SerializedFields(fields[1..]);
      FieldsRead(fields[1..], rest);
      FieldReads(fields[0], "," + (more + "}" + rest));
      FirstField(fields, more, rest);
    }
  }
}
