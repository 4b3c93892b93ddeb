/** The injector: `variables` and `changed` are updated in place while the walk
    rebuilds the operation. */
module Injector {
  import opened Values
  import opened Presets

  class Injector {
    const ctx: Context
    var variables: map<string, Value>
    var changed: bool

    constructor (c: Context, vars: map<string, Value>)
      ensures ctx == c && variables == vars && !changed
    {
      ctx := c;
      variables := vars;
      changed := false;
    }

    ghost function State(): St
      reads this
    {
      St(variables, changed)
    }

    /** Argument presets: every valued directive of every declared argument. */
    method FillArguments(defs: seq<ArgDef>, given: seq<(string, QueryValue)>) returns (r: Result<seq<(string, QueryValue)>, PresetError>)
      modifies this`changed
      ensures match AddPresets(ctx, defs, Args(given, old(State())))
              case Ok(a) => r == Ok(a.list) && State() == a.st
              case Err(e) => r == Err(e)
    {
      var args := given;
      for i := 0 to |defs|
        invariant AddPresets(ctx, defs[..i], Args(given, old(State()))) == Ok(Args(args, State()))
      {
        assert defs[..i + 1][..i] == defs[..i];
        AddPresetsStops(ctx, defs, i, Args(given, old(State())));
        var filled := FillDirectives(defs[i], args);
        if filled.Err? {
          return filled;
        }
        args := filled.value;
      }
      assert defs[..|defs|] == defs;
      r := Ok(args);
    }

    method FillDirectives(arg: ArgDef, given: seq<(string, QueryValue)>) returns (r: Result<seq<(string, QueryValue)>, PresetError>)
      modifies this`changed
      ensures match AddDirectives(ctx, arg, arg.directives, Args(given, old(State())))
              case Ok(a) => r == Ok(a.list) && State() == a.st
              case Err(e) => r == Err(e)
    {
      var args := given;
      var ds := arg.directives;
      for j := 0 to |ds|
        invariant AddDirectives(ctx, arg, ds[..j], Args(given, old(State()))) == Ok(Args(args, State()))
      {
        assert ds[..j + 1][..j] == ds[..j];
        if !Valued(ds[j]) {
          continue;
        }
        AddDirectivesStops(ctx, arg, ds, j, Args(given, old(State())));
        var value := ServerValue(ctx, arg.base, ds[j].value.value);
        if value.Err? {
          return Err(value.error);
        }
        if !HasArg(args, arg.name) {
          args := args + [(arg.name, value.value)];
          changed := true;
        }
      }
      assert ds[..|ds|] == ds;
      r := Ok(args);
    }

    /** Preset fields of input objects, merged into the argument or into the
        variable it names. */
    method MergeArguments(defs: seq<ArgDef>, given: seq<(string, QueryValue)>) returns (args: seq<(string, QueryValue)>)
      modifies this
      ensures Args(args, State()) == MergeInputs(ctx, defs, Args(given, old(State())))
    {
      args := given;
      for i := 0 to |defs|
        invariant Args(args, State()) == MergeInputs(ctx, defs[..i], Args(given, old(State())))
      {
        assert defs[..i + 1][..i] == defs[..i];
        var presets := InputPresets(ctx, defs[i].base);
        if presets == [] {
          continue;
        }
        var at := FindArg(args, defs[i].name);
        if at.None? {
          args := args + [(defs[i].name, Object(Collected(ctx, presets)))];
          changed := true;
        } else {
          match args[at.value].1 {
            case Variable(x) =>
              var entry := if x in variables then variables[x] else Obj([]);
              if entry.Obj? {
                variables := variables[x := Obj(PatchJson(ctx, entry.fields, presets))];
                changed := true;
              }
            case Object(m) =>
              args := args[at.value := (defs[i].name, Object(PatchObject(ctx, m, presets)))];
              changed := true;
            case Plain(_) =>
          }
        }
      }
      assert defs[..|defs|] == defs;
    }

    method WalkField(parent: string, f: QField) returns (r: Result<QField, PresetError>)
      modifies this
      ensures match Walk(ctx, parent, f, old(State()))
              case Ok(p) => r == Ok(p.0) && State() == p.1
              case Err(e) => r == Err(e)
      decreases f, 0
    {
      var def := FieldOn(ctx, parent, f.name);
      if def.None? {
        return Ok(f);
      }
      var filled := FillArguments(def.value.args, f.args);
      if filled.Err? {
        return Err(filled.error);
      }
      var args := MergeArguments(def.value.args, filled.value);
      var items := WalkSelection(def.value.base, f.items);
      r := if items.Err? then Err(items.error) else Ok(QField(f.name, args, items.value));
    }

    method WalkSelection(parent: string, items: seq<Item>) returns (r: Result<seq<Item>, PresetError>)
      modifies this
      ensures match WalkItems(ctx, parent, items, old(State()))
              case Ok(p) => r == Ok(p.0) && State() == p.1
              case Err(e) => r == Err(e)
      decreases items, 1
    {
      var out: seq<Item> := [];
      for i := 0 to |items|
        invariant WalkItems(ctx, parent, items[..i], old(State())) == Ok((out, State()))
      {
        assert items[..i + 1][..i] == items[..i];
        WalkItemsStops(ctx, parent, items, i, old(State()));
        var item := WalkOne(parent, items[i]);
        if item.Err? {
          return Err(item.error);
        }
        out := out + [item.value];
      }
      assert items[..|items|] == items;
      r := Ok(out);
    }

    method WalkOne(parent: string, item: Item) returns (r: Result<Item, PresetError>)
      modifies this
      ensures match WalkItem(ctx, parent, item, old(State()))
              case Ok(p) => r == Ok(p.0) && State() == p.1
              case Err(e) => r == Err(e)
      decreases item, 0
    {
      if item.Fragment? {
        return Ok(item);
      }
      var sub := WalkField(parent, item.field);
      r := if sub.Err? then Err(sub.error) else Ok(Sub(sub.value));
    }
  }

  // ----- the first failure decides -----

  lemma {:induction false} AddDirectivesStops(ctx: Context, arg: ArgDef, ds: seq<Directive>, j: nat, a: Args)
    requires j < |ds|
    ensures
      var upTo := AddDirectives(ctx, arg, ds[..j + 1], a);
      upTo.Err? ==> AddDirectives(ctx, arg, ds, a) == upTo
  {
    if j + 1 == |ds| {
      assert ds[..j + 1] == ds;
    } else {
      var n := |ds| - 1;
      assert ds[..n][..j + 1] == ds[..j + 1];
      AddDirectivesStops(ctx, arg, ds[..n], j, a);
    }
  }

  lemma {:induction false} AddPresetsStops(ctx: Context, defs: seq<ArgDef>, i: nat, a: Args)
    requires i < |defs|
    ensures
      var upTo := AddPresets(ctx, defs[..i + 1], a);
      upTo.Err? ==> AddPresets(ctx, defs, a) == upTo
  {
    if i + 1 == |defs| {
      assert defs[..i + 1] == defs;
    } else {
      var n := |defs| - 1;
      assert defs[..n][..i + 1] == defs[..i + 1];
      AddPresetsStops(ctx, defs[..n], i, a);
    }
  }

  lemma {:induction false} WalkItemsStops(ctx: Context, parent: string, items: seq<Item>, i: nat, st: St)
    requires i < |items|
    ensures
      var upTo := WalkItems(ctx, parent, items[..i + 1], st);
      upTo.Err? ==> WalkItems(ctx, parent, items, st) == upTo
  {
    if i + 1 == |items| {
      assert items[..i + 1] == items;
    } else {
      var n := |items| - 1;
      assert items[..n][..i + 1] == items[..i + 1];
      WalkItemsStops(ctx, parent, items[..n], i, st);
    }
  }
}
