/** What preset injection writes: every preset key of a reached input argument
    holds the client's value if the client wrote the key, and the preset's value
    otherwise, in the argument itself and in the variable it names. */
module PresetValues {
  import opened Values
  import opened JsonAccess
  import opened SessionNames
  import opened Presets
  import opened PresetsCorrect

  // ----- which preset of a key applies -----

  function FirstPreset(presets: seq<(string, SchemaValue)>, k: string): Option<SchemaValue> {
    if presets == [] then None
    else
      var init := FirstPreset(presets[..|presets| - 1], k);
      var p := presets[|presets| - 1];
      if init.Some? then init else if p.0 == k then Some(p.1) else None
  }

  function LastPreset(presets: seq<(string, SchemaValue)>, k: string): Option<SchemaValue> {
    if presets == [] then None
    else
      var p := presets[|presets| - 1];
      if p.0 == k then Some(p.1) else LastPreset(presets[..|presets| - 1], k)
  }

  lemma {:induction false} LookupAppend(fields: seq<(string, Value)>, e: (string, Value), k: string)
    ensures Lookup(fields + [e], k) ==
            if Lookup(fields, k).Some? then Lookup(fields, k) else if e.0 == k then Some(e.1) else None
  {
    if fields != [] {
      assert (fields + [e])[1..] == fields[1..] + [e];
      LookupAppend(fields[1..], e, k);
    }
  }

  function JsonOf(ctx: Context, v: Option<SchemaValue>): Option<Value> {
    if v.None? then None else Some(ctx.toJson(v.value))
  }

  function QueryOf(ctx: Context, v: Option<SchemaValue>): Option<QueryValue> {
    if v.None? then None else Some(ctx.toQuery(v.value))
  }

  function KeyOf(m: map<string, QueryValue>, k: string): Option<QueryValue> {
    if k in m then Some(m[k]) else None
  }

  /** Patched JSON: the client's value, else the first preset's. */
  lemma {:induction false} PatchJsonValue(ctx: Context, fields: seq<(string, Value)>, presets: seq<(string, SchemaValue)>, k: string)
    ensures Lookup(PatchJson(ctx, fields, presets), k) ==
            if Lookup(fields, k).Some? then Lookup(fields, k) else JsonOf(ctx, FirstPreset(presets, k))
  {
    if presets != [] {
      var n := |presets| - 1;
      PatchJsonValue(ctx, fields, presets[..n], k);
      var init := PatchJson(ctx, fields, presets[..n]);
      LookupFinds(init, presets[n].0);
      LookupAppend(init, (presets[n].0, ctx.toJson(presets[n].1)), k);
    }
  }

  /** Patched objects: the same. */
  lemma {:induction false} PatchObjectValue(ctx: Context, m: map<string, QueryValue>, presets: seq<(string, SchemaValue)>, k: string)
    ensures KeyOf(PatchObject(ctx, m, presets), k) ==
            if k in m then Some(m[k]) else QueryOf(ctx, FirstPreset(presets, k))
  {
    if presets != [] {
      PatchObjectValue(ctx, m, presets[..|presets| - 1], k);
    }
  }

  /** A created object: the last preset's. */
  lemma {:induction false} CollectedValue(ctx: Context, presets: seq<(string, SchemaValue)>, k: string)
    ensures KeyOf(Collected(ctx, presets), k) == QueryOf(ctx, LastPreset(presets, k))
  {
    if presets != [] {
      CollectedValue(ctx, presets[..|presets| - 1], k);
    }
  }

  // ----- arguments -----

  function ArgValue(args: seq<(string, QueryValue)>, name: string): Option<QueryValue> {
    var i := FindArg(args, name);
    if i.None? then None else Some(args[i.value].1)
  }

  /** An argument before input presets: the client's, else the server's. */
  function BaseArg(ctx: Context, arg: ArgDef, args: seq<(string, QueryValue)>): Option<QueryValue> {
    if HasArg(args, arg.name) then ArgValue(args, arg.name)
    else
      var raw := FirstValued(arg.directives);
      if raw.None? || ServerValue(ctx, arg.base, raw.value).Err? then None
      else Some(ServerValue(ctx, arg.base, raw.value).value)
  }

  /** An argument after input presets. */
  function InputArg(ctx: Context, arg: ArgDef, v: Option<QueryValue>): Option<QueryValue> {
    var presets := InputPresets(ctx, arg.base);
    if presets == [] then v
    else if v.None? then Some(Object(Collected(ctx, presets)))
    else if v.value.Object? then Some(Object(PatchObject(ctx, v.value.fields, presets)))
    else v
  }

  lemma FoundIs(args: seq<(string, QueryValue)>, name: string, i: nat)
    requires i < |args| && args[i].0 == name && forall j :: 0 <= j < i ==> args[j].0 != name
    ensures FindArg(args, name) == Some(i) && ArgValue(args, name) == Some(args[i].1)
  {
    assert HasArg(args, name);
  }

  lemma AppendOther(args: seq<(string, QueryValue)>, e: (string, QueryValue), name: string)
    requires HasArg(args, name) || e.0 != name
    ensures ArgValue(args + [e], name) == ArgValue(args, name)
  {
    if HasArg(args, name) {
      FoundIs(args + [e], name, FindArg(args, name).value);
    } else {
      assert forall j :: 0 <= j < |args| ==> (args + [e])[j] == args[j];
      assert !HasArg(args + [e], name);
    }
  }

  lemma AppendNew(args: seq<(string, QueryValue)>, name: string, v: QueryValue)
    requires !HasArg(args, name)
    ensures ArgValue(args + [(name, v)], name) == Some(v)
  {
    FoundIs(args + [(name, v)], name, |args|);
  }

  lemma UpdateAt(args: seq<(string, QueryValue)>, i: nat, v: QueryValue, name: string)
    requires i < |args|
    ensures args[i].0 != name ==> ArgValue(args[i := (args[i].0, v)], name) == ArgValue(args, name)
    ensures FindArg(args, name) == Some(i) ==> ArgValue(args[i := (args[i].0, v)], name) == Some(v)
  {
    var b := args[i := (args[i].0, v)];
    assert forall j :: 0 <= j < |args| ==> b[j].0 == args[j].0;
    if HasArg(args, name) {
      FoundIs(b, name, FindArg(args, name).value);
    } else {
      assert !HasArg(b, name);
    }
  }

  /** One argument's directives leave every other argument alone. */
  lemma {:induction false} DirectivesOther(ctx: Context, arg: ArgDef, ds: seq<Directive>, a: Args, name: string)
    requires AddDirectives(ctx, arg, ds, a).Ok? && (name != arg.name || HasArg(a.list, name))
    ensures ArgValue(AddDirectives(ctx, arg, ds, a).value.list, name) == ArgValue(a.list, name)
  {
    if ds != [] {
      var n := |ds| - 1;
      DirectivesOther(ctx, arg, ds[..n], a, name);
      var init := AddDirectives(ctx, arg, ds[..n], a).value;
      DirectivesGrow(ctx, arg, ds[..n], a);
      if HasArg(a.list, name) {
        HasArgKept(a.list, init.list, name);
      }
      if Valued(ds[n]) {
        AppendOther(init.list, (arg.name, ServerValue(ctx, arg.base, ds[n].value.value).value), name);
      }
    }
  }

  lemma DirectivesOwn(ctx: Context, arg: ArgDef, a: Args)
    requires AddDirectives(ctx, arg, arg.directives, a).Ok?
    ensures ArgValue(AddDirectives(ctx, arg, arg.directives, a).value.list, arg.name) == BaseArg(ctx, arg, a.list)
  {
    if HasArg(a.list, arg.name) {
      DirectivesOther(ctx, arg, arg.directives, a, arg.name);
    } else {
      DirectivesFill(ctx, arg, arg.directives, a);
      var raw := FirstValued(arg.directives);
      if raw.Some? {
        AppendNew(a.list, arg.name, ServerValue(ctx, arg.base, raw.value).value);
      }
    }
  }

  lemma BaseArgSame(ctx: Context, arg: ArgDef, a: seq<(string, QueryValue)>, b: seq<(string, QueryValue)>)
    requires ArgValue(a, arg.name) == ArgValue(b, arg.name)
    ensures BaseArg(ctx, arg, a) == BaseArg(ctx, arg, b)
  {
  }

  /** After the first pass each declared argument is the client's or the server's. */
  /** The presets of one argument leave the earlier ones alone. */
  lemma {:induction false} OthersKept(ctx: Context, defs: seq<ArgDef>, k: nat, a: Args)
    requires k < |defs| && DistinctNames(defs) && AddDirectives(ctx, defs[k], defs[k].directives, a).Ok?
    ensures forall i :: 0 <= i < k ==>
      ArgValue(AddDirectives(ctx, defs[k], defs[k].directives, a).value.list, defs[i].name) == ArgValue(a.list, defs[i].name)
  {
    forall i | 0 <= i < k
      ensures ArgValue(AddDirectives(ctx, defs[k], defs[k].directives, a).value.list, defs[i].name) == ArgValue(a.list, defs[i].name)
    {
      DirectivesOther(ctx, defs[k], defs[k].directives, a, defs[i].name);
    }
  }

  lemma {:induction false} PresetPassValues(ctx: Context, defs: seq<ArgDef>, n: nat, a: Args, name: string)
    requires n <= |defs| && DistinctNames(defs) && AddPresets(ctx, defs[..n], a).Ok?
    ensures
      var r := AddPresets(ctx, defs[..n], a).value;
      (forall i :: 0 <= i < n ==> ArgValue(r.list, defs[i].name) == BaseArg(ctx, defs[i], a.list)) &&
      ((forall i :: 0 <= i < n ==> defs[i].name != name) ==> ArgValue(r.list, name) == ArgValue(a.list, name))
  {
    if n > 0 {
      var k := n - 1;
      assert defs[..n][..k] == defs[..k] && defs[..n][k] == defs[k];
      var init, r := AddPresets(ctx, defs[..k], a).value, AddPresets(ctx, defs[..n], a).value;
      PresetPassValues(ctx, defs, k, a, defs[k].name);
      BaseArgSame(ctx, defs[k], init.list, a.list);
      DirectivesOwn(ctx, defs[k], init);
      OthersKept(ctx, defs, k, init);
      if forall i :: 0 <= i < n ==> defs[i].name != name {
        PresetPassValues(ctx, defs, k, a, name);
        DirectivesOther(ctx, defs[k], defs[k].directives, init, name);
      }
    }
  }

  lemma MergeOwn(ctx: Context, arg: ArgDef, a: Args)
    ensures ArgValue(MergeInput(ctx, arg, a).list, arg.name) == InputArg(ctx, arg, ArgValue(a.list, arg.name))
  {
    var presets := InputPresets(ctx, arg.base);
    if presets != [] {
      var i := FindArg(a.list, arg.name);
      if i.None? {
        AppendNew(a.list, arg.name, Object(Collected(ctx, presets)));
      } else if a.list[i.value].1.Object? {
        UpdateAt(a.list, i.value, Object(PatchObject(ctx, a.list[i.value].1.fields, presets)), arg.name);
      }
    }
  }

  lemma MergeOther(ctx: Context, arg: ArgDef, a: Args, name: string)
    requires name != arg.name
    ensures ArgValue(MergeInput(ctx, arg, a).list, name) == ArgValue(a.list, name)
  {
    var presets := InputPresets(ctx, arg.base);
    if presets != [] {
      var i := FindArg(a.list, arg.name);
      if i.None? {
        AppendOther(a.list, (arg.name, Object(Collected(ctx, presets))), name);
      } else if a.list[i.value].1.Object? {
        UpdateAt(a.list, i.value, Object(PatchObject(ctx, a.list[i.value].1.fields, presets)), name);
      }
    }
  }

  lemma MergeStep(ctx: Context, arg: ArgDef, a: Args, other: ArgDef, own: bool)
    requires if own then other == arg else other.name != arg.name
    ensures ArgValue(MergeInput(ctx, arg, a).list, other.name) ==
            if own then InputArg(ctx, arg, ArgValue(a.list, arg.name)) else ArgValue(a.list, other.name)
  {
    if own {
      MergeOwn(ctx, arg, a);
    } else {
      MergeOther(ctx, arg, a, other.name);
    }
  }

  /** After the second pass each declared argument carries its input presets. */
  lemma {:induction false} InputPassValues(ctx: Context, defs: seq<ArgDef>, n: nat, a: Args, i: nat)
    requires n <= |defs| && DistinctNames(defs) && i < |defs|
    ensures ArgValue(MergeInputs(ctx, defs[..n], a).list, defs[i].name) ==
            if i < n then InputArg(ctx, defs[i], ArgValue(a.list, defs[i].name)) else ArgValue(a.list, defs[i].name)
  {
    if n == 0 {
      assert defs[..n] == [];
    } else {
      var k := n - 1;
      InputPassValues(ctx, defs, k, a, i);
      MergeInputsSnoc(ctx, defs, k, a);
      MergeStep(ctx, defs[k], MergeInputs(ctx, defs[..k], a), defs[i], i == k);
    }
  }

  lemma MergeInputsSnoc(ctx: Context, defs: seq<ArgDef>, k: nat, a: Args)
    requires k < |defs|
    ensures MergeInputs(ctx, defs[..k + 1], a) == MergeInput(ctx, defs[k], MergeInputs(ctx, defs[..k], a))
  {
    assert defs[..k + 1][..k] == defs[..k];
  }

  /** Both passes. */
  lemma ArgumentsAre(ctx: Context, defs: seq<ArgDef>, a: Args, added: Args, i: nat)
    requires DistinctNames(defs) && AddPresets(ctx, defs, a) == Ok(added) && i < |defs|
    ensures ArgValue(MergeInputs(ctx, defs, added).list, defs[i].name) == InputArg(ctx, defs[i], BaseArg(ctx, defs[i], a.list))
  {
    assert defs[..|defs|] == defs;
    PresetPassValues(ctx, defs, |defs|, a, "");
    InputPassValues(ctx, defs, |defs|, added, i);
  }

  /** Every declared argument of every field reached is what its declaration and
      the client make it. */
  ghost predicate ArgumentsExact(ctx: Context, parent: string, f: QField, g: QField)
    decreases f
  {
    var def := FieldOn(ctx, parent, f.name);
    def.Some? ==>
      (forall i :: 0 <= i < |def.value.args| ==> ArgExact(ctx, def.value.args[i], f.args, g.args)) &&
      |g.items| == |f.items| &&
      forall i :: 0 <= i < |f.items| && f.items[i].Sub? ==>
        g.items[i].Sub? && ArgumentsExact(ctx, def.value.base, f.items[i].field, g.items[i].field)
  }

  ghost predicate ArgExact(ctx: Context, arg: ArgDef, before: seq<(string, QueryValue)>, after: seq<(string, QueryValue)>) {
    ArgValue(after, arg.name) == InputArg(ctx, arg, BaseArg(ctx, arg, before))
  }

  /** Main result for arguments. */
  lemma {:induction false} InjectedArguments(ctx: Context, parent: string, f: QField, st: St)
    requires DistinctArguments(ctx) && Walk(ctx, parent, f, st).Ok?
    ensures ArgumentsExact(ctx, parent, f, Walk(ctx, parent, f, st).value.0)
    decreases f
  {
    var def := FieldOn(ctx, parent, f.name);
    if def.Some? {
      var defs := def.value.args;
      var a := Args(f.args, st);
      var added := AddPresets(ctx, defs, a).value;
      var merged := MergeInputs(ctx, defs, added);
      var g := Walk(ctx, parent, f, st).value.0;
      forall i | 0 <= i < |defs| ensures ArgExact(ctx, defs[i], f.args, g.args) {
        ArgumentsAre(ctx, defs, a, added, i);
      }
      forall i | 0 <= i < |f.items| && f.items[i].Sub?
        ensures g.items[i].Sub? && ArgumentsExact(ctx, def.value.base, f.items[i].field, g.items[i].field)
      {
        var before := ItemAt(ctx, def.value.base, f.items, i, merged.st);
        InjectedArguments(ctx, def.value.base, f.items[i].field, before);
      }
    }
  }

  /** The value under a preset key of an injected input argument: the client's
      where the client wrote an object with that key, the first preset's where the
      client left the key out, the last preset's where there was no argument. */
  lemma InputKeyValue(ctx: Context, arg: ArgDef, v: Option<QueryValue>, k: string)
    requires InputPresets(ctx, arg.base) != [] && (v.Some? ==> v.value.Object?)
    ensures
      var presets := InputPresets(ctx, arg.base);
      var after := InputArg(ctx, arg, v);
      after.Some? && after.value.Object? && KeyOf(after.value.fields, k) ==
        if v.None? then QueryOf(ctx, LastPreset(presets, k))
        else if k in v.value.fields then Some(v.value.fields[k])
        else QueryOf(ctx, FirstPreset(presets, k))
  {
    var presets := InputPresets(ctx, arg.base);
    if v.None? {
      CollectedValue(ctx, presets, k);
    } else {
      PatchObjectValue(ctx, v.value.fields, presets, k);
    }
  }

  // ----- variables -----

  function VarOf(variables: map<string, Value>, x: string): Option<Value> {
    if x in variables then Some(variables[x]) else None
  }

  /** A variable after a list of presets was merged into it. */
  function Patched(ctx: Context, v: Option<Value>, presets: seq<(string, SchemaValue)>): Option<Value> {
    if presets == [] || (v.Some? && !v.value.Obj?) then v
    else Some(Obj(PatchJson(ctx, if v.None? then [] else v.value.fields, presets)))
  }

  lemma {:induction false} PatchJsonTwice(ctx: Context, fields: seq<(string, Value)>, p: seq<(string, SchemaValue)>,
    q: seq<(string, SchemaValue)>)
    ensures PatchJson(ctx, PatchJson(ctx, fields, p), q) == PatchJson(ctx, fields, p + q)
  {
    if q == [] {
      assert p + q == p;
    } else {
      var n := |q| - 1;
      PatchJsonTwice(ctx, fields, p, q[..n]);
      assert (p + q)[..|p + q| - 1] == p + q[..n];
    }
  }

  lemma PatchedTwice(ctx: Context, v: Option<Value>, p: seq<(string, SchemaValue)>, q: seq<(string, SchemaValue)>)
    ensures Patched(ctx, Patched(ctx, v, p), q) == Patched(ctx, v, p + q)
  {
    if p == [] {
      assert p + q == q;
    } else if q == [] {
      assert p + q == p;
    } else if v.None? || v.value.Obj? {
      PatchJsonTwice(ctx, if v.None? then [] else v.value.fields, p, q);
    }
  }

  /** The presets that the arguments of one field bring to a variable, in order. */
  function ArgPatches(ctx: Context, defs: seq<ArgDef>, args: seq<(string, QueryValue)>, x: string): seq<(string, SchemaValue)> {
    if defs == [] then []
    else
      var n := |defs| - 1;
      ArgPatches(ctx, defs[..n], args, x) +
      (if ArgValue(args, defs[n].name) == Some(Variable(x)) then InputPresets(ctx, defs[n].base) else [])
  }

  lemma MergeVariable(ctx: Context, arg: ArgDef, a: Args, x: string)
    ensures VarOf(MergeInput(ctx, arg, a).st.variables, x) ==
            Patched(ctx, VarOf(a.st.variables, x),
              if ArgValue(a.list, arg.name) == Some(Variable(x)) then InputPresets(ctx, arg.base) else [])
  {
  }

  lemma {:induction false} InputPassVariable(ctx: Context, defs: seq<ArgDef>, n: nat, a: Args, x: string)
    requires n <= |defs| && DistinctNames(defs)
    ensures VarOf(MergeInputs(ctx, defs[..n], a).st.variables, x) ==
            Patched(ctx, VarOf(a.st.variables, x), ArgPatches(ctx, defs[..n], a.list, x))
  {
    if n > 0 {
      var k := n - 1;
      assert defs[..n][..k] == defs[..k] && defs[..n][k] == defs[k];
      InputPassVariable(ctx, defs, k, a, x);
      InputPassValues(ctx, defs, k, a, k);
      var init := MergeInputs(ctx, defs[..k], a);
      MergeVariable(ctx, defs[k], init, x);
      PatchedTwice(ctx, VarOf(a.st.variables, x), ArgPatches(ctx, defs[..k], a.list, x),
        if ArgValue(a.list, defs[k].name) == Some(Variable(x)) then InputPresets(ctx, defs[k].base) else []);
    }
  }

  /** Injection turns no argument into a variable and no variable into anything
      else, so the patches can be read off the injected arguments. */
  lemma {:induction false} PatchesAfter(ctx: Context, defs: seq<ArgDef>, n: nat, a: Args, x: string)
    requires n <= |defs| && DistinctNames(defs)
    ensures ArgPatches(ctx, defs[..n], MergeInputs(ctx, defs, a).list, x) == ArgPatches(ctx, defs[..n], a.list, x)
  {
    if n > 0 {
      assert defs[..n][..n - 1] == defs[..n - 1] && defs[..|defs|] == defs;
      PatchesAfter(ctx, defs, n - 1, a, x);
      InputPassValues(ctx, defs, |defs|, a, n - 1);
    }
  }

  /** The presets that a whole injected field brings to a variable, in the order
      of the walk. */
  function FieldPatches(ctx: Context, parent: string, g: QField, x: string): seq<(string, SchemaValue)>
    decreases g, 0
  {
    var def := FieldOn(ctx, parent, g.name);
    if def.None? then []
    else ArgPatches(ctx, def.value.args, g.args, x) + ItemsPatches(ctx, def.value.base, g.items, x)
  }

  function ItemsPatches(ctx: Context, parent: string, items: seq<Item>, x: string): seq<(string, SchemaValue)>
    decreases items, 1
  {
    if items == [] then []
    else
      var n := |items| - 1;
      ItemsPatches(ctx, parent, items[..n], x) + ItemPatches(ctx, parent, items[n], x)
  }

  function ItemPatches(ctx: Context, parent: string, item: Item, x: string): seq<(string, SchemaValue)>
    decreases item, 0
  {
    if item.Sub? then FieldPatches(ctx, parent, item.field, x) else []
  }

  /** Main result for variables: a variable ends as the client sent it, with the
      presets of all input arguments that use it merged in, in walk order. */
  lemma {:induction false} InjectedVariable(ctx: Context, parent: string, f: QField, st: St, x: string)
    requires DistinctArguments(ctx) && Walk(ctx, parent, f, st).Ok?
    ensures
      var (g, st2) := Walk(ctx, parent, f, st).value;
      VarOf(st2.variables, x) == Patched(ctx, VarOf(st.variables, x), FieldPatches(ctx, parent, g, x))
    decreases f, 0
  {
    var def := FieldOn(ctx, parent, f.name);
    if def.Some? {
      var defs := def.value.args;
      var added := AddPresets(ctx, defs, Args(f.args, st)).value;
      var merged := MergeInputs(ctx, defs, added);
      assert defs[..|defs|] == defs;
      PresetsGrow(ctx, defs, Args(f.args, st));
      InputPassVariable(ctx, defs, |defs|, added, x);
      PatchesAfter(ctx, defs, |defs|, added, x);
      InjectedVariableItems(ctx, def.value.base, f.items, merged.st, x);
      var items := WalkItems(ctx, def.value.base, f.items, merged.st).value.0;
      PatchedTwice(ctx, VarOf(st.variables, x), ArgPatches(ctx, defs, merged.list, x), ItemsPatches(ctx, def.value.base, items, x));
    }
  }

  lemma {:induction false} InjectedVariableItems(ctx: Context, parent: string, items: seq<Item>, st: St, x: string)
    requires DistinctArguments(ctx) && WalkItems(ctx, parent, items, st).Ok?
    ensures
      var (out, st2) := WalkItems(ctx, parent, items, st).value;
      VarOf(st2.variables, x) == Patched(ctx, VarOf(st.variables, x), ItemsPatches(ctx, parent, out, x))
    decreases items, 1
  {
    if items != [] {
      var n := |items| - 1;
      InjectedVariableItems(ctx, parent, items[..n], st, x);
      var (init, st1) := WalkItems(ctx, parent, items[..n], st).value;
      InjectedVariableItem(ctx, parent, items[n], st1, x);
      var last := WalkItem(ctx, parent, items[n], st1).value.0;
      var out := init + [last];
      assert out[..n] == init && out[n] == last;
      PatchedTwice(ctx, VarOf(st.variables, x), ItemsPatches(ctx, parent, init, x), ItemPatches(ctx, parent, last, x));
    }
  }

  lemma {:induction false} InjectedVariableItem(ctx: Context, parent: string, item: Item, st: St, x: string)
    requires DistinctArguments(ctx) && WalkItem(ctx, parent, item, st).Ok?
    ensures
      var (out, st2) := WalkItem(ctx, parent, item, st).value;
      VarOf(st2.variables, x) == Patched(ctx, VarOf(st.variables, x), ItemPatches(ctx, parent, out, x))
    decreases item, 0
  {
    if item.Sub? {
      InjectedVariable(ctx, parent, item.field, st, x);
    }
  }

  /** The value under a key of a patched variable: the client's if the client
      wrote it, else the first preset's in walk order. */
  lemma VariableKeyValue(ctx: Context, v: Option<Value>, presets: seq<(string, SchemaValue)>, k: string)
    requires presets != [] && (v.Some? ==> v.value.Obj?)
    ensures
      var after := Patched(ctx, v, presets);
      after.Some? && after.value.Obj? && Lookup(after.value.fields, k) ==
        if v.Some? && Lookup(v.value.fields, k).Some? then Lookup(v.value.fields, k) else JsonOf(ctx, FirstPreset(presets, k))
  {
    PatchJsonValue(ctx, if v.None? then [] else v.value.fields, presets, k);
  }

  // ----- the server's value -----

  /** A reference to a session variable stands for the variable's value, coerced to
      the argument's type, and fails only when the variable is missing or does not
      coerce; anything else stands for itself. */
  lemma {:induction false} ServerValueReads(ctx: Context, base: string, raw: SchemaValue)
    ensures
      var v := ServerValue(ctx, base, raw);
      if raw.SText? && Refers(raw.s) then
        (v == Err(MissingVariable) <==> forall x :: x in ctx.vars ==> !Names(raw.s, x)) &&
        forall x :: x in ctx.vars && Names(raw.s, x) ==>
          v == if ctx.coerce(base, ctx.vars[x]).Some? then Ok(ctx.coerce(base, ctx.vars[x]).value) else Err(CoercionError)
      else v == Ok(ctx.toQuery(raw))
  {
    if raw.SText? {
      RefersSame(raw.s);
      NamesLower(raw.s, Lower(raw.s));
      forall x ensures Names(raw.s, x) <==> x == Lower(raw.s) {
        NamesLower(raw.s, x);
      }
    }
  }
}
