/** JSON values as text: how an array or object literal is written into SQL
    before it is cast to its column's type. */
module JsonText {
  import opened Values
  import opened Strings

  function HexDigit(n: nat): char
    requires n < 16
  {
    "0123456789abcdef"[n]
  }

  function Escaped(c: char): string {
    if c == '"' then "\\\""
    else if c == '\\' then "\\\\"
    else if c == '\n' then "\\n"
    else if c == '\r' then "\\r"
    else if c == '\t' then "\\t"
    else if c as int == 8 then "\\b"
    else if c as int == 12 then "\\f"
    else if c < ' ' then "\\u00" + [HexDigit(c as int / 16), HexDigit(c as int % 16)]
    else [c]
  }

  function EscapedText(s: string): string {
    if s == "" then "" else Escaped(s[0]) + EscapedText(s[1..])
  }

  function StringText(s: string): string {
    "\"" + EscapedText(s) + "\""
  }

  function NumberText(n: int): string {
    if n < 0 then "-" + Decimal(-n) else Decimal(n)
  }

  function Serialized(v: Value): string
    decreases v, 0
  {
    match v
    case Null => "null"
    case Bool(b) => if b then "true" else "false"
    case Num(n) => NumberText(n)
    case Text(s) => StringText(s)
    case Arr(items) => "[" + SerializedItems(items) + "]"
    case Obj(fields) => "{" + SerializedFields(fields) + "}"
    case Error => ""
  }

  function SerializedItems(items: seq<Value>): string
    decreases items, 1
  {
    if items == [] then ""
    else if |items| == 1 then Serialized(items[0])
    else SerializedItems(items[..|items| - 1]) + "," + Serialized(items[|items| - 1])
  }

  function SerializedFields(fields: seq<(string, Value)>): string
    decreases fields, 1
  {
    if fields == [] then ""
    else if |fields| == 1 then SerializedField(fields[0])
    else SerializedFields(fields[..|fields| - 1]) + "," + SerializedField(fields[|fields| - 1])
  }

  function SerializedField(field: (string, Value)): string
    decreases field, 0
  {
    StringText(field.0) + ":" + Serialized(field.1)
  }
}
