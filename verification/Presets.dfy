/** Preset injection into operations for a remote schema (crates/server
    remote.rs): the role's SDL hides arguments marked @preset from clients and
    the server fills them in, together with preset fields of input objects. How
    schema values are written as query values and as JSON is arbitrary. */
module Presets {
  import opened Values
  import opened JsonAccess

  // ----- the role's SDL and the operation -----

  datatype SchemaValue = SText(s: string) | SOther(text: string)

  datatype Directive = Directive(name: string, value: Option<SchemaValue>)

  datatype ArgDef = ArgDef(name: string, base: string, directives: seq<Directive>)

  datatype FieldDef = FieldDef(name: string, args: seq<ArgDef>, base: string)

  datatype TypeDef = ObjectDef(fields: seq<FieldDef>) | InputDef(inputs: seq<ArgDef>) | OtherDef

  datatype QueryValue = Variable(name: string) | Object(fields: map<string, QueryValue>) | Plain(text: string)

  datatype QField = QField(name: string, args: seq<(string, QueryValue)>, items: seq<Item>)

  /** A fragment, inline or spread, holds its type condition and its selections;
      validation and injection both pass over it. */
  datatype Item = Sub(field: QField) | Fragment(on: Option<string>, items: seq<Item>)

  datatype Context = Context(
    types: map<string, TypeDef>,
    vars: map<string, string>,
    toQuery: SchemaValue -> QueryValue,
    toJson: SchemaValue -> Value,
    coerce: (string, string) -> Option<QueryValue>)   // by base type; None when an Int does not parse

  datatype PresetError = MissingVariable | CoercionError

  /** What the walk updates besides the document. */
  datatype St = St(variables: map<string, Value>, changed: bool)

  function FieldOn(ctx: Context, typeName: string, field: string): Option<FieldDef> {
    if typeName in ctx.types && ctx.types[typeName].ObjectDef? then FindDef(ctx.types[typeName].fields, field) else None
  }

  function FindDef(fields: seq<FieldDef>, name: string): Option<FieldDef> {
    if fields == [] then None else if fields[0].name == name then Some(fields[0]) else FindDef(fields[1..], name)
  }

  // ----- validation of a client operation -----

  predicate HasPreset(a: ArgDef) {
    exists i :: 0 <= i < |a.directives| && a.directives[i].name == "preset"
  }

  predicate Visible(def: FieldDef, arg: string) {
    exists i :: 0 <= i < |def.args| && def.args[i].name == arg && !HasPreset(def.args[i])
  }

  /** `validate_field` for a client (not server-built) operation. */
  predicate ValidField(ctx: Context, parent: string, f: QField)
    decreases f
  {
    var def := FieldOn(ctx, parent, f.name);
    def.Some? &&
    (forall i :: 0 <= i < |f.args| ==> Visible(def.value, f.args[i].0)) &&
    forall i :: 0 <= i < |f.items| && f.items[i].Sub? && f.items[i].field.name != "__typename" ==>
      ValidField(ctx, def.value.base, f.items[i].field)
  }

  // ----- argument presets -----

  function HasArg(args: seq<(string, QueryValue)>, name: string): bool {
    exists i :: 0 <= i < |args| && args[i].0 == name
  }

  /** The server's value of one directive: session variables are coerced by the
      argument's base type. */
  function ServerValue(ctx: Context, base: string, raw: SchemaValue): Result<QueryValue, PresetError> {
    if raw.SText? && IsSessionRef(raw.s) then
      if Lower(raw.s) !in ctx.vars then Err(MissingVariable)
      else
        var v := ctx.coerce(base, ctx.vars[Lower(raw.s)]);
        if v.None? then Err(CoercionError) else Ok(v.value)
    else Ok(ctx.toQuery(raw))
  }

  predicate Valued(d: Directive) {
    d.name == "preset" && d.value.Some?
  }

  datatype Args = Args(list: seq<(string, QueryValue)>, st: St)

  function AddPreset(a: Args, name: string, v: QueryValue): Args {
    if HasArg(a.list, name) then a else Args(a.list + [(name, v)], a.st.(changed := true))
  }

  function AddDirectives(ctx: Context, arg: ArgDef, ds: seq<Directive>, a: Args): Result<Args, PresetError> {
    if ds == [] then Ok(a)
    else
      var n := |ds| - 1;
      var init := AddDirectives(ctx, arg, ds[..n], a);
      if init.Err? || !Valued(ds[n]) then init
      else
        var v := ServerValue(ctx, arg.base, ds[n].value.value);
        if v.Err? then Err(v.error) else Ok(AddPreset(init.value, arg.name, v.value))
  }

  function AddPresets(ctx: Context, defs: seq<ArgDef>, a: Args): Result<Args, PresetError> {
    if defs == [] then Ok(a)
    else
      var n := |defs| - 1;
      var init := AddPresets(ctx, defs[..n], a);
      if init.Err? then init else AddDirectives(ctx, defs[n], defs[n].directives, init.value)
  }

  // ----- input-object presets -----

  /** Each valued @preset of each input field. */
  function FieldPresets(name: string, ds: seq<Directive>): seq<(string, SchemaValue)> {
    if ds == [] then []
    else
      var init := FieldPresets(name, ds[..|ds| - 1]);
      var d := ds[|ds| - 1];
      if Valued(d) then init + [(name, d.value.value)] else init
  }

  function AllPresets(inputs: seq<ArgDef>): seq<(string, SchemaValue)> {
    if inputs == [] then []
    else
      var f := inputs[|inputs| - 1];
      AllPresets(inputs[..|inputs| - 1]) + FieldPresets(f.name, f.directives)
  }

  function InputPresets(ctx: Context, typeName: string): seq<(string, SchemaValue)> {
    if typeName in ctx.types && ctx.types[typeName].InputDef? then AllPresets(ctx.types[typeName].inputs) else []
  }

  function FindArg(args: seq<(string, QueryValue)>, name: string): (r: Option<nat>)
    ensures r.Some? ==> r.value < |args| && args[r.value].0 == name && forall j :: 0 <= j < r.value ==> args[j].0 != name
    ensures r.None? <==> !HasArg(args, name)
  {
    if args == [] then None
    else if args[0].0 == name then Some(0)
    else
      var rest := FindArg(args[1..], name);
      assert forall j :: 1 <= j < |args| ==> args[j] == args[1..][j - 1];
      if rest.None? then None else Some(rest.value + 1)
  }

  function PatchJson(ctx: Context, fields: seq<(string, Value)>, presets: seq<(string, SchemaValue)>): seq<(string, Value)> {
    if presets == [] then fields
    else
      var n := |presets| - 1;
      var init := PatchJson(ctx, fields, presets[..n]);
      if HasKey(init, presets[n].0) then init else init + [(presets[n].0, ctx.toJson(presets[n].1))]
  }

  function PatchObject(ctx: Context, m: map<string, QueryValue>, presets: seq<(string, SchemaValue)>): map<string, QueryValue> {
    if presets == [] then m
    else
      var n := |presets| - 1;
      var init := PatchObject(ctx, m, presets[..n]);
      if presets[n].0 in init then init else init[presets[n].0 := ctx.toQuery(presets[n].1)]
  }

  /** A missing argument becomes an object of the presets; the last of two
      presets on one key wins here. */
  function Collected(ctx: Context, presets: seq<(string, SchemaValue)>): map<string, QueryValue> {
    if presets == [] then map[]
    else
      var n := |presets| - 1;
      Collected(ctx, presets[..n])[presets[n].0 := ctx.toQuery(presets[n].1)]
  }

  function PatchVariable(ctx: Context, st: St, x: string, presets: seq<(string, SchemaValue)>): St {
    var entry := if x in st.variables then st.variables[x] else Obj([]);
    if entry.Obj? then St(st.variables[x := Obj(PatchJson(ctx, entry.fields, presets))], true) else st
  }

  function MergeInput(ctx: Context, arg: ArgDef, a: Args): Args {
    var presets := InputPresets(ctx, arg.base);
    if presets == [] then a
    else
      var i := FindArg(a.list, arg.name);
      if i.None? then Args(a.list + [(arg.name, Object(Collected(ctx, presets)))], a.st.(changed := true))
      else
        match a.list[i.value].1
        case Variable(x) => a.(st := PatchVariable(ctx, a.st, x, presets))
        case Object(m) => Args(a.list[i.value := (arg.name, Object(PatchObject(ctx, m, presets)))], a.st.(changed := true))
        case Plain(_) => a
  }

  function MergeInputs(ctx: Context, defs: seq<ArgDef>, a: Args): Args {
    if defs == [] then a else MergeInput(ctx, defs[|defs| - 1], MergeInputs(ctx, defs[..|defs| - 1], a))
  }

  // ----- the walk -----

  function Walk(ctx: Context, parent: string, f: QField, st: St): Result<(QField, St), PresetError>
    decreases f, 0
  {
    var def := FieldOn(ctx, parent, f.name);
    if def.None? then Ok((f, st))
    else
      var added := AddPresets(ctx, def.value.args, Args(f.args, st));
      if added.Err? then Err(added.error)
      else
        var merged := MergeInputs(ctx, def.value.args, added.value);
        var items := WalkItems(ctx, def.value.base, f.items, merged.st);
        if items.Err? then Err(items.error) else Ok((QField(f.name, merged.list, items.value.0), items.value.1))
  }

  function WalkItems(ctx: Context, parent: string, items: seq<Item>, st: St): (r: Result<(seq<Item>, St), PresetError>)
    ensures r.Ok? ==> |r.value.0| == |items|
    decreases items, 1
  {
    if items == [] then Ok(([], st))
    else
      var n := |items| - 1;
      var init := WalkItems(ctx, parent, items[..n], st);
      if init.Err? then init
      else
        var last := WalkItem(ctx, parent, items[n], init.value.1);
        if last.Err? then Err(last.error) else Ok((init.value.0 + [last.value.0], last.value.1))
  }

  function WalkItem(ctx: Context, parent: string, item: Item, st: St): Result<(Item, St), PresetError>
    decreases item, 0
  {
    if item.Fragment? then Ok((item, st))
    else
      var sub := Walk(ctx, parent, item.field, st);
      if sub.Err? then Err(sub.error) else Ok((Sub(sub.value.0), sub.value.1))
  }
}
