/** Typing of webhook responses (crates/server action.rs): parsing type
    references, and checking and shaping a JSON value against an output type
    and a selection set. */
module ActionTypes {
  import opened Values
  import opened Strings
  import opened Entries

  // ----- type references -----

  datatype TypeRef = Named(name: string, nonNull: bool) | List(inner: TypeRef, nonNull: bool)

  function ParseType(s: string): TypeRef
    decreases |s|
  {
    var t := Trim(s);
    if t != [] && t[|t| - 1] == '!' then ParseType(t[..|t| - 1]).(nonNull := true)
    else if |t| >= 2 && t[0] == '[' && t[|t| - 1] == ']' then List(ParseType(t[1..|t| - 1]), false)
    else Named(t, false)
  }

  function Print(ty: TypeRef): string
    decreases ty, 1
  {
    if ty.nonNull then PrintCore(ty) + "!" else PrintCore(ty)
  }

  function PrintCore(ty: TypeRef): string
    decreases ty, 0
  {
    if ty.Named? then ty.name else "[" + Print(ty.inner) + "]"
  }

  predicate NameChar(c: char) {
    'a' <= c <= 'z' || 'A' <= c <= 'Z' || '0' <= c <= '9' || c == '_'
  }

  /** Names as GraphQL writes them. */
  predicate NamesOk(ty: TypeRef) {
    match ty
    case Named(name, _) => name != [] && forall i :: 0 <= i < |name| ==> NameChar(name[i])
    case List(inner, _) => NamesOk(inner)
  }

  ghost predicate Padded(s: string, core: string) {
    exists before, after :: Blank(before) && Blank(after) && s == before + core + after
  }

  /** `s` writes `ty`, with any amount of space between its tokens. */
  ghost predicate Spells(s: string, ty: TypeRef)
    decreases ty, 1
  {
    if ty.nonNull then exists x :: SpellsNullable(x, ty) && Padded(s, x + "!") else SpellsNullable(s, ty)
  }

  /** The same without the closing `!`. */
  ghost predicate SpellsNullable(s: string, ty: TypeRef)
    decreases ty, 0
  {
    match ty
    case Named(name, _) => Padded(s, name)
    case List(inner, _) => exists x :: Spells(x, inner) && Padded(s, "[" + x + "]")
  }

  /** The visible part of a nullable type reference. */
  ghost predicate IsCore(core: string, ty: TypeRef) {
    Solid(core) && core[|core| - 1] != '!' &&
    match ty
    case Named(name, _) => core == name
    case List(inner, _) => |core| >= 2 && core[0] == '[' && core[|core| - 1] == ']' && Spells(core[1..|core| - 1], inner)
  }

  lemma CoreOf(s: string, ty: TypeRef) returns (before: string, core: string, after: string)
    requires NamesOk(ty) && SpellsNullable(s, ty)
    ensures Blank(before) && Blank(after) && s == before + core + after && IsCore(core, ty)
  {
    match ty
    case Named(name, _) =>
      core := name;
      before, after :| Blank(before) && Blank(after) && s == before + core + after;
      assert NameChar(name[0]) && NameChar(name[|name| - 1]);
    case List(inner, _) =>
      var x :| Spells(x, inner) && Padded(s, "[" + x + "]");
      core := "[" + x + "]";
      before, after :| Blank(before) && Blank(after) && s == before + core + after;
      assert core[1..|core| - 1] == x;
  }

  lemma {:induction false} CoreParses(s: string, core: string, ty: TypeRef)
    requires NamesOk(ty) && IsCore(core, ty) && Trim(s) == core
    ensures ParseType(s) == ty.(nonNull := false)
    decreases ty, 0, 0
  {
    if ty.List? {
      SpelledParses(core[1..|core| - 1], ty.inner);
    } else {
      assert NameChar(core[0]);
    }
  }

  lemma BangParses(s: string, x: string)
    requires Trim(s) == x + "!"
    ensures ParseType(s) == ParseType(x).(nonNull := true)
  {
    assert (x + "!")[..|x|] == x;
  }

  /** Space before and after `core !`, and between its parts, is dropped. */
  lemma TrimsToBang(s: string, before: string, b: string, core: string, a: string, after: string)
    requires Blank(before) && Blank(b) && Blank(a) && Blank(after) && Solid(core)
    requires s == before + (b + core + a + "!") + after
    ensures Trim(s) == core + a + "!" && Trim(core + a) == core
  {
    assert s == (before + b) + (core + a + "!") + after;
    TrimPadded(before + b, core + a + "!", after);
    TrimPadded("", core, a);
    assert "" + core + a == core + a;
  }

  /** Parsing inverts every spelling of a type reference. */
  lemma {:induction false} SpelledParses(s: string, ty: TypeRef)
    requires NamesOk(ty) && Spells(s, ty)
    ensures ParseType(s) == ty
    decreases ty, 1
  {
    if ty.nonNull {
      NonNullParses(s, ty);
    } else {
      var before, core, after := CoreOf(s, ty);
      TrimPadded(before, core, after);
      CoreParses(s, core, ty);
    }
  }

  lemma {:induction false} NonNullParses(s: string, ty: TypeRef)
    requires NamesOk(ty) && Spells(s, ty) && ty.nonNull
    ensures ParseType(s) == ty
    decreases ty, 0, 1
  {
    var x :| SpellsNullable(x, ty) && Padded(s, x + "!");
    var b, core, a := CoreOf(x, ty);
    var before, after :| Blank(before) && Blank(after) && s == before + (x + "!") + after;
    TrimsToBang(s, before, b, core, a, after);
    BangParses(s, core + a);
    CoreParses(core + a, core, ty);
  }

  lemma PaddedSelf(s: string)
    ensures Padded(s, s)
  {
    assert Blank("") && s == "" + s + "";
  }

  lemma {:induction false} CoreSpells(ty: TypeRef)
    ensures SpellsNullable(PrintCore(ty), ty)
    decreases ty, 0
  {
    PaddedSelf(PrintCore(ty));
    if ty.List? {
      PrintSpells(ty.inner);
    }
  }

  lemma {:induction false} PrintSpells(ty: TypeRef)
    ensures Spells(Print(ty), ty)
    decreases ty, 1
  {
    CoreSpells(ty);
    PaddedSelf(PrintCore(ty) + "!");
  }

  /** The round trip. */
  lemma {:induction false} PrintParses(ty: TypeRef)
    requires NamesOk(ty)
    ensures ParseType(Print(ty)) == ty
  {
    PrintSpells(ty);
    SpelledParses(Print(ty), ty);
  }

  // ----- values, types and selections -----

  /** Numbers are kept apart as serde_json keeps them: 64-bit integers, or not. */
  datatype Json =
    | JNull
    | JBool(b: bool)
    | JInt(n: int)
    | JFloat(r: real)
    | JStr(s: string)
    | JArr(items: seq<Json>)
    | JObj(fields: seq<(string, Json)>)

  datatype Selection = Field(name: string, alias: Option<string>, items: seq<Selection>) | Spread

  datatype ObjectType = ObjectType(name: string, fields: seq<(string, string)>)

  type CustomTypes = seq<ObjectType>

  datatype Mismatch = GotNull | ExpectingArray | GotArray | GotScalar | GotObject | FieldMissing | FieldNull

  function FindObject(types: CustomTypes, name: string): Option<ObjectType> {
    if types == [] then None else if types[0].name == name then Some(types[0]) else FindObject(types[1..], name)
  }

  function FindField(fields: seq<(string, string)>, name: string): Option<string> {
    if fields == [] then None else if fields[0].0 == name then Some(fields[0].1) else FindField(fields[1..], name)
  }

  function Get(fields: seq<(string, Json)>, name: string): (v: Option<Json>)
    ensures v.Some? ==> exists i :: 0 <= i < |fields| && fields[i] == (name, v.value)
  {
    if fields == [] then None
    else if fields[0].0 == name then
      assert fields[0] == (name, fields[0].1);
      Some(fields[0].1)
    else
      var v := Get(fields[1..], name);
      assert v.Some? ==> exists i :: 0 <= i < |fields[1..]| && fields[1..][i] == (name, v.value);
      v
  }

  function AliasOf(f: Selection): string
    requires f.Field?
  {
    if f.alias.Some? then f.alias.value else f.name
  }

  predicate ScalarOk(name: string, v: Json) {
    match name
    case "String" => v.JStr?
    case "Int" => v.JInt?
    case "Float" => v.JInt? || v.JFloat?
    case "Boolean" => v.JBool?
    case "ID" => v.JStr? || v.JInt? || v.JFloat?
    case _ => true
  }

  // ----- conformance -----

  /** Object types with their names. */
  function ByName(types: CustomTypes): (r: seq<(string, ObjectType)>)
    ensures |r| == |types| && forall i :: 0 <= i < |types| ==> r[i] == (types[i].name, types[i])
  {
    seq(|types|, i requires 0 <= i < |types| => (types[i].name, types[i]))
  }

  /** The built-in scalars have their own values; every other name takes any. */
  predicate ScalarFits(name: string, v: Json) {
    (name == "String" ==> v.JStr?) && (name == "Int" ==> v.JInt?) && (name == "Float" ==> v.JInt? || v.JFloat?) &&
    (name == "Boolean" ==> v.JBool?) && (name == "ID" ==> v.JStr? || v.JInt? || v.JFloat?)
  }

  /** The value has the type, on the declared fields that are selected. */
  ghost predicate Conforms(types: CustomTypes, ty: TypeRef, v: Json, sel: seq<Selection>)
    decreases v, 1, ty
  {
    if v.JNull? then !ty.nonNull
    else if ty.List? then v.JArr? && forall i :: 0 <= i < |v.items| ==> Conforms(types, ty.inner, v.items[i], sel)
    else
      var obj := First(ByName(types), ty.name);
      if obj.None? then ScalarFits(ty.name, v)
      else v.JObj? && forall i :: 0 <= i < |sel| && sel[i].Field? ==> FieldConforms(types, obj.value, v, sel[i])
  }

  /** A declared field is there with its type; a nullable one may be absent. */
  ghost predicate FieldConforms(types: CustomTypes, obj: ObjectType, v: Json, f: Selection)
    requires v.JObj? && f.Field?
    decreases v, 0
  {
    var ty, raw := First(obj.fields, f.name), First(v.fields, f.name);
    f.name == "__typename" || ty.None? ||
    if raw.None? then !ParseType(ty.value).nonNull
    else raw.value < v && Conforms(types, ParseType(ty.value), raw.value, f.items)
  }

  lemma GetSmaller(v: Json, name: string)
    requires v.JObj? && Get(v.fields, name).Some?
    ensures Get(v.fields, name).value < v
  {
    var w := Get(v.fields, name).value;
    var i :| 0 <= i < |v.fields| && v.fields[i] == (name, w);
    assert v.fields[i].1 < v;
  }

  // ----- validate -----

  function ScalarMismatch(v: Json): Mismatch {
    if v.JObj? then GotObject else if v.JArr? then GotArray else GotScalar
  }

  function Validate(types: CustomTypes, ty: TypeRef, v: Json, sel: seq<Selection>): Result<Json, Mismatch>
    decreases v, 3, ty
  {
    if v.JNull? then if ty.nonNull then Err(GotNull) else Ok(JNull)
    else if ty.List? then
      if !v.JArr? then Err(ExpectingArray)
      else
        var shaped := ValidateItems(types, ty.inner, v.items, sel);
        if shaped.Err? then Err(shaped.error) else Ok(JArr(shaped.value))
    else
      var obj := FindObject(types, ty.name);
      if obj.None? then
        if ScalarOk(ty.name, v) then Ok(v) else Err(ScalarMismatch(v))
      else if v.JArr? then Err(GotArray)
      else if !v.JObj? then Err(GotScalar)
      else
        var out := Project(types, obj.value, v, sel);
        if out.Err? then Err(out.error) else Ok(JObj(out.value))
  }

  function ValidateItems(types: CustomTypes, ty: TypeRef, items: seq<Json>, sel: seq<Selection>): (r: Result<seq<Json>, Mismatch>)
    ensures r.Ok? ==> |r.value| == |items|
    decreases items, 0, ty
  {
    if items == [] then Ok([])
    else
      var n := |items| - 1;
      var init := ValidateItems(types, ty, items[..n], sel);
      if init.Err? then init
      else
        var last := Validate(types, ty, items[n], sel);
        if last.Err? then Err(last.error) else Ok(init.value + [last.value])
  }

  /** `project_object` */
  function Project(types: CustomTypes, obj: ObjectType, v: Json, sel: seq<Selection>): Result<seq<(string, Json)>, Mismatch>
    requires v.JObj?
    decreases v, 2, |sel|
  {
    if sel == [] then Ok([])
    else
      var n := |sel| - 1;
      var init := Project(types, obj, v, sel[..n]);
      if init.Err? || sel[n].Spread? then init
      else
        var shaped := ProjectField(types, obj, v, sel[n]);
        if shaped.Err? then Err(shaped.error) else Ok(Put(init.value, AliasOf(sel[n]), shaped.value))
  }

  function ProjectField(types: CustomTypes, obj: ObjectType, v: Json, f: Selection): Result<Json, Mismatch>
    requires v.JObj? && f.Field?
    decreases v, 1, 0
  {
    var declared := FindField(obj.fields, f.name);
    var raw := Get(v.fields, f.name);
    if f.name == "__typename" then Ok(JStr(obj.name))
    else if declared.None? then Ok(if raw.None? then JNull else raw.value)
    else
      var ty := ParseType(declared.value);
      if raw.None? then if ty.nonNull then Err(FieldMissing) else Ok(JNull)
      else if raw.value.JNull? then if ty.nonNull then Err(FieldNull) else Ok(JNull)
      else
        GetSmaller(v, f.name);
        Validate(types, ty, raw.value, f.items)
  }

  // ----- the loop of project_object -----

  method ValidateValue(types: CustomTypes, ty: TypeRef, v: Json, sel: seq<Selection>) returns (r: Result<Json, Mismatch>)
    ensures r == Validate(types, ty, v, sel)
    decreases v, 3, ty
  {
    if v.JObj? && ty.Named? && FindObject(types, ty.name).Some? {
      var out := ProjectObject(types, FindObject(types, ty.name).value, v, sel);
      r := if out.Err? then Err(out.error) else Ok(JObj(out.value));
    } else if v.JArr? && ty.List? {
      var shaped: seq<Json> := [];
      for i := 0 to |v.items|
        invariant ValidateItems(types, ty.inner, v.items[..i], sel) == Ok(shaped)
      {
        assert v.items[..i + 1][..i] == v.items[..i];
        ItemsStop(types, ty.inner, v.items, i, sel);
        var item := ValidateValue(types, ty.inner, v.items[i], sel);
        if item.Err? {
          return Err(item.error);
        }
        shaped := shaped + [item.value];
      }
      assert v.items[..|v.items|] == v.items;
      r := Ok(JArr(shaped));
    } else {
      r := Validate(types, ty, v, sel);
    }
  }

  method ProjectObject(types: CustomTypes, obj: ObjectType, v: Json, sel: seq<Selection>)
    returns (r: Result<seq<(string, Json)>, Mismatch>)
    requires v.JObj?
    ensures r == Project(types, obj, v, sel)
    decreases v, 2, TypeRef.Named("", false)
  {
    var out: seq<(string, Json)> := [];
    for i := 0 to |sel|
      invariant Project(types, obj, v, sel[..i]) == Ok(out)
    {
      assert sel[..i + 1][..i] == sel[..i];
      ProjectStops(types, obj, v, sel, i);
      if sel[i].Spread? {
        continue;
      }
      var f := sel[i];
      var declared, raw := FindField(obj.fields, f.name), Get(v.fields, f.name);
      var shaped: Json;
      if f.name == "__typename" {
        shaped := JStr(obj.name);
      } else if declared.None? {
        shaped := if raw.None? then JNull else raw.value;
      } else if raw.None? || raw.value.JNull? {
        if ParseType(declared.value).nonNull {
          return Err(if raw.None? then FieldMissing else FieldNull);
        }
        shaped := JNull;
      } else {
        GetSmaller(v, f.name);
        var nested := ValidateValue(types, ParseType(declared.value), raw.value, f.items);
        if nested.Err? {
          return Err(nested.error);
        }
        shaped := nested.value;
      }
      out := Put(out, AliasOf(f), shaped);
    }
    assert sel[..|sel|] == sel;
    r := Ok(out);
  }

  lemma {:induction false} ItemsStop(types: CustomTypes, ty: TypeRef, items: seq<Json>, i: nat, sel: seq<Selection>)
    requires i < |items|
    ensures
      var upTo := ValidateItems(types, ty, items[..i + 1], sel);
      upTo.Err? ==> ValidateItems(types, ty, items, sel) == upTo
  {
    if i + 1 == |items| {
      assert items[..i + 1] == items;
    } else {
      var n := |items| - 1;
      assert items[..n][..i + 1] == items[..i + 1];
      ItemsStop(types, ty, items[..n], i, sel);
    }
  }

  lemma {:induction false} ProjectStops(types: CustomTypes, obj: ObjectType, v: Json, sel: seq<Selection>, i: nat)
    requires v.JObj? && i < |sel|
    ensures
      var upTo := Project(types, obj, v, sel[..i + 1]);
      upTo.Err? ==> Project(types, obj, v, sel) == upTo
  {
    if i + 1 == |sel| {
      assert sel[..i + 1] == sel;
    } else {
      var n := |sel| - 1;
      assert sel[..n][..i + 1] == sel[..i + 1];
      ProjectStops(types, obj, v, sel[..n], i);
    }
  }
}
