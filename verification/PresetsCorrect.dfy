/** Preset injection only adds, fills in every hidden argument, and changes
    nothing when it is applied a second time. */
module PresetsCorrect {
  import opened Values
  import opened JsonAccess
  import opened Presets

  // ----- what "unchanged" means for a client's input -----

  ghost predicate ValueExtends(v: QueryValue, w: QueryValue) {
    w == v || (v.Object? && w.Object? && forall k :: k in v.fields ==> k in w.fields && w.fields[k] == v.fields[k])
  }

  predicate JsonExtends(v: Value, w: Value) {
    w == v || (v.Obj? && w.Obj? && v.fields <= w.fields)
  }

  ghost predicate VarsExtend(a: map<string, Value>, b: map<string, Value>) {
    forall x :: x in a ==> x in b && JsonExtends(a[x], b[x])
  }

  ghost predicate ArgsExtend(a: seq<(string, QueryValue)>, b: seq<(string, QueryValue)>) {
    |a| <= |b| && forall i :: 0 <= i < |a| ==> ArgExtends(a[i], b[i])
  }

  ghost predicate ArgExtends(a: (string, QueryValue), b: (string, QueryValue)) {
    b.0 == a.0 && ValueExtends(a.1, b.1)
  }

  /** Same fields in the same places; every argument and key still there with
      its value. */
  ghost predicate FieldExtends(f: QField, g: QField)
    decreases f
  {
    g.name == f.name && ArgsExtend(f.args, g.args) && |g.items| == |f.items| &&
    forall i :: 0 <= i < |f.items| ==> ItemExtends(f.items[i], g.items[i])
  }

  ghost predicate ItemExtends(a: Item, b: Item)
    decreases a
  {
    if a.Fragment? then b == a else b.Sub? && FieldExtends(a.field, b.field)
  }

  lemma VarsTrans(a: map<string, Value>, b: map<string, Value>, c: map<string, Value>)
    requires VarsExtend(a, b) && VarsExtend(b, c)
    ensures VarsExtend(a, c)
  {
    forall x | x in a ensures x in c && JsonExtends(a[x], c[x]) {
      assert JsonExtends(a[x], b[x]) && JsonExtends(b[x], c[x]);
    }
  }

  lemma ArgsTrans(a: seq<(string, QueryValue)>, b: seq<(string, QueryValue)>, c: seq<(string, QueryValue)>)
    requires ArgsExtend(a, b) && ArgsExtend(b, c)
    ensures ArgsExtend(a, c)
  {
    forall i | 0 <= i < |a| ensures ArgExtends(a[i], c[i]) {
      assert ArgExtends(a[i], b[i]) && ArgExtends(b[i], c[i]);
    }
  }

  ghost predicate ArgsGrow(a: Args, b: Args) {
    ArgsExtend(a.list, b.list) && VarsExtend(a.st.variables, b.st.variables) && (a.st.changed ==> b.st.changed) &&
    (!b.st.changed ==> b == a)
  }

  lemma GrowTrans(a: Args, b: Args, c: Args)
    requires ArgsGrow(a, b) && ArgsGrow(b, c)
    ensures ArgsGrow(a, c)
  {
    ArgsTrans(a.list, b.list, c.list);
    VarsTrans(a.st.variables, b.st.variables, c.st.variables);
  }

  // ----- injection only adds -----

  lemma {:induction false} DirectivesGrow(ctx: Context, arg: ArgDef, ds: seq<Directive>, a: Args)
    requires AddDirectives(ctx, arg, ds, a).Ok?
    ensures
      var r := AddDirectives(ctx, arg, ds, a).value;
      ArgsGrow(a, r) && r.st.variables == a.st.variables &&
      forall j :: 0 <= j < |ds| && Valued(ds[j]) ==> ServerValue(ctx, arg.base, ds[j].value.value).Ok? && HasArg(r.list, arg.name)
  {
    if ds != [] {
      var n := |ds| - 1;
      DirectivesGrow(ctx, arg, ds[..n], a);
      var init, r := AddDirectives(ctx, arg, ds[..n], a).value, AddDirectives(ctx, arg, ds, a).value;
      assert forall j :: 0 <= j < n ==> ds[..n][j] == ds[j];
      if Valued(ds[n]) {
        assert !HasArg(init.list, arg.name) ==> r.list[|init.list|].0 == arg.name;
        assert HasArg(r.list, arg.name);
      }
      GrowTrans(a, init, r);
    }
  }

  lemma HasArgKept(a: seq<(string, QueryValue)>, b: seq<(string, QueryValue)>, name: string)
    requires ArgsExtend(a, b) && HasArg(a, name)
    ensures HasArg(b, name) && FindArg(b, name) == FindArg(a, name)
    ensures ValueExtends(a[FindArg(a, name).value].1, b[FindArg(a, name).value].1)
  {
    var i := FindArg(a, name).value;
    assert ArgExtends(a[i], b[i]);
    assert forall j :: 0 <= j < i ==> ArgExtends(a[j], b[j]);
  }

  /** Every valued @preset of the argument resolves, and the argument is there. */
  ghost predicate Filled(ctx: Context, arg: ArgDef, args: seq<(string, QueryValue)>) {
    forall j :: 0 <= j < |arg.directives| && Valued(arg.directives[j]) ==>
      ServerValue(ctx, arg.base, arg.directives[j].value.value).Ok? && HasArg(args, arg.name)
  }

  lemma FilledKept(ctx: Context, arg: ArgDef, a: seq<(string, QueryValue)>, b: seq<(string, QueryValue)>)
    requires Filled(ctx, arg, a) && ArgsExtend(a, b)
    ensures Filled(ctx, arg, b)
  {
    if HasArg(a, arg.name) {
      HasArgKept(a, b, arg.name);
    }
  }

  lemma {:induction false} PresetsGrow(ctx: Context, defs: seq<ArgDef>, a: Args)
    requires AddPresets(ctx, defs, a).Ok?
    ensures
      var r := AddPresets(ctx, defs, a).value;
      ArgsGrow(a, r) && r.st.variables == a.st.variables && forall i :: 0 <= i < |defs| ==> Filled(ctx, defs[i], r.list)
  {
    if defs != [] {
      var n := |defs| - 1;
      PresetsGrow(ctx, defs[..n], a);
      var init, r := AddPresets(ctx, defs[..n], a).value, AddPresets(ctx, defs, a).value;
      DirectivesGrow(ctx, defs[n], defs[n].directives, init);
      GrowTrans(a, init, r);
      forall i | 0 <= i < n ensures Filled(ctx, defs[i], r.list) {
        assert defs[..n][i] == defs[i];
        FilledKept(ctx, defs[i], init.list, r.list);
      }
    }
  }

  // ----- patching -----

  lemma {:induction false} PatchJsonAdds(ctx: Context, fields: seq<(string, Value)>, presets: seq<(string, SchemaValue)>)
    ensures fields <= PatchJson(ctx, fields, presets)
    ensures forall i :: 0 <= i < |presets| ==> HasKey(PatchJson(ctx, fields, presets), presets[i].0)
  {
    if presets != [] {
      var n := |presets| - 1;
      PatchJsonAdds(ctx, fields, presets[..n]);
      var init, r := PatchJson(ctx, fields, presets[..n]), PatchJson(ctx, fields, presets);
      forall k | HasKey(init, k) ensures HasKey(r, k) {
        var i :| 0 <= i < |init| && init[i].0 == k;
        assert r[i].0 == k;
      }
      assert !HasKey(init, presets[n].0) ==> r[|init|].0 == presets[n].0;
      assert forall i :: 0 <= i < n ==> presets[..n][i] == presets[i];
    }
  }

  lemma {:induction false} PatchJsonSettled(ctx: Context, fields: seq<(string, Value)>, presets: seq<(string, SchemaValue)>)
    requires forall i :: 0 <= i < |presets| ==> HasKey(fields, presets[i].0)
    ensures PatchJson(ctx, fields, presets) == fields
  {
    if presets != [] {
      PatchJsonSettled(ctx, fields, presets[..|presets| - 1]);
    }
  }

  lemma {:induction false} PatchObjectAdds(ctx: Context, m: map<string, QueryValue>, presets: seq<(string, SchemaValue)>)
    ensures ValueExtends(Object(m), Object(PatchObject(ctx, m, presets)))
    ensures forall i :: 0 <= i < |presets| ==> presets[i].0 in PatchObject(ctx, m, presets)
  {
    if presets != [] {
      var n := |presets| - 1;
      PatchObjectAdds(ctx, m, presets[..n]);
      assert forall i :: 0 <= i < n ==> presets[..n][i] == presets[i];
    }
  }

  lemma {:induction false} PatchObjectSettled(ctx: Context, m: map<string, QueryValue>, presets: seq<(string, SchemaValue)>)
    requires forall i :: 0 <= i < |presets| ==> presets[i].0 in m
    ensures PatchObject(ctx, m, presets) == m
  {
    if presets != [] {
      PatchObjectSettled(ctx, m, presets[..|presets| - 1]);
    }
  }

  lemma {:induction false} CollectedAll(ctx: Context, presets: seq<(string, SchemaValue)>)
    ensures forall i :: 0 <= i < |presets| ==> presets[i].0 in Collected(ctx, presets)
  {
    if presets != [] {
      var n := |presets| - 1;
      CollectedAll(ctx, presets[..n]);
      assert forall i :: 0 <= i < n ==> presets[..n][i] == presets[i];
    }
  }

  // ----- a settled argument needs nothing more -----

  ghost predicate InputSettled(v: QueryValue, presets: seq<(string, SchemaValue)>, variables: map<string, Value>) {
    match v
    case Variable(x) =>
      x in variables && (variables[x].Obj? ==> forall i :: 0 <= i < |presets| ==> HasKey(variables[x].fields, presets[i].0))
    case Object(m) => forall i :: 0 <= i < |presets| ==> presets[i].0 in m
    case Plain(_) => true
  }

  ghost predicate Merged(ctx: Context, arg: ArgDef, args: seq<(string, QueryValue)>, variables: map<string, Value>) {
    InputPresets(ctx, arg.base) != [] ==>
      HasArg(args, arg.name) && InputSettled(args[FindArg(args, arg.name).value].1, InputPresets(ctx, arg.base), variables)
  }

  lemma InputSettledKept(v: QueryValue, w: QueryValue, presets: seq<(string, SchemaValue)>, a: map<string, Value>, b: map<string, Value>)
    requires InputSettled(v, presets, a) && ValueExtends(v, w) && VarsExtend(a, b)
    ensures InputSettled(w, presets, b)
  {
    if v.Variable? && b[v.name].Obj? {
      assert JsonExtends(a[v.name], b[v.name]);
      forall i | 0 <= i < |presets| ensures HasKey(b[v.name].fields, presets[i].0) {
        var j :| 0 <= j < |a[v.name].fields| && a[v.name].fields[j].0 == presets[i].0;
        assert b[v.name].fields[j].0 == presets[i].0;
      }
    }
  }

  lemma MergedKept(ctx: Context, arg: ArgDef, a: seq<(string, QueryValue)>, b: seq<(string, QueryValue)>,
    va: map<string, Value>, vb: map<string, Value>)
    requires Merged(ctx, arg, a, va) && ArgsExtend(a, b) && VarsExtend(va, vb)
    ensures Merged(ctx, arg, b, vb)
  {
    if InputPresets(ctx, arg.base) != [] {
      HasArgKept(a, b, arg.name);
      var i := FindArg(a, arg.name).value;
      InputSettledKept(a[i].1, b[i].1, InputPresets(ctx, arg.base), va, vb);
    }
  }

  lemma PatchVariableGrows(ctx: Context, st: St, x: string, presets: seq<(string, SchemaValue)>)
    ensures
      var r := PatchVariable(ctx, st, x, presets);
      VarsExtend(st.variables, r.variables) && (st.changed ==> r.changed) && (!r.changed ==> r == st) &&
      InputSettled(Variable(x), presets, r.variables)
  {
    var entry := if x in st.variables then st.variables[x] else Obj([]);
    if entry.Obj? {
      PatchJsonAdds(ctx, entry.fields, presets);
    }
  }

  lemma MergeInputGrows(ctx: Context, arg: ArgDef, a: Args)
    ensures ArgsGrow(a, MergeInput(ctx, arg, a))
    ensures Merged(ctx, arg, MergeInput(ctx, arg, a).list, MergeInput(ctx, arg, a).st.variables)
  {
    var presets := InputPresets(ctx, arg.base);
    var r := MergeInput(ctx, arg, a);
    if presets != [] {
      var i := FindArg(a.list, arg.name);
      if i.None? {
        CollectedAll(ctx, presets);
        assert r.list[|a.list|].0 == arg.name;
        assert forall j :: 0 <= j < |a.list| ==> r.list[j] == a.list[j];
        assert FindArg(r.list, arg.name) == Some(|a.list|);
      } else {
        var v := a.list[i.value].1;
        if v.Variable? {
          PatchVariableGrows(ctx, a.st, v.name, presets);
        } else if v.Object? {
          PatchObjectAdds(ctx, v.fields, presets);
          assert r.list[i.value].0 == arg.name;
          assert forall j :: 0 <= j < |a.list| && j != i.value ==> r.list[j] == a.list[j];
          assert FindArg(r.list, arg.name) == i;
        }
      }
    }
  }

  ghost predicate AllMerged(ctx: Context, defs: seq<ArgDef>, a: Args) {
    forall i :: 0 <= i < |defs| ==> Merged(ctx, defs[i], a.list, a.st.variables)
  }

  lemma AllMergedKept(ctx: Context, defs: seq<ArgDef>, a: Args, b: Args)
    requires AllMerged(ctx, defs, a) && ArgsGrow(a, b)
    ensures AllMerged(ctx, defs, b)
  {
    forall i | 0 <= i < |defs| ensures Merged(ctx, defs[i], b.list, b.st.variables) {
      MergedKept(ctx, defs[i], a.list, b.list, a.st.variables, b.st.variables);
    }
  }

  lemma {:induction false} MergeInputsGrow(ctx: Context, defs: seq<ArgDef>, a: Args)
    ensures ArgsGrow(a, MergeInputs(ctx, defs, a)) && AllMerged(ctx, defs, MergeInputs(ctx, defs, a))
  {
    if defs != [] {
      var n := |defs| - 1;
      MergeInputsGrow(ctx, defs[..n], a);
      var init := MergeInputs(ctx, defs[..n], a);
      var r := MergeInput(ctx, defs[n], init);
      MergeInputGrows(ctx, defs[n], init);
      GrowTrans(a, init, r);
      AllMergedKept(ctx, defs[..n], init, r);
      MergedSnoc(ctx, defs, r);
    }
  }

  lemma MergedSnoc(ctx: Context, defs: seq<ArgDef>, a: Args)
    requires defs != [] && AllMerged(ctx, defs[..|defs| - 1], a)
    requires Merged(ctx, defs[|defs| - 1], a.list, a.st.variables)
    ensures AllMerged(ctx, defs, a)
  {
    var n := |defs| - 1;
    forall i | 0 <= i < |defs| ensures Merged(ctx, defs[i], a.list, a.st.variables) {
      assert i < n ==> defs[..n][i] == defs[i];
    }
  }

  // ----- the whole walk -----

  /** Nothing below would be changed by another injection. */
  ghost predicate Settled(ctx: Context, parent: string, f: QField, variables: map<string, Value>)
    decreases f
  {
    var def := FieldOn(ctx, parent, f.name);
    def.Some? ==>
      ArgsSettled(ctx, def.value.args, f.args, variables) &&
      forall i :: 0 <= i < |f.items| ==> ItemSettled(ctx, def.value.base, f.items[i], variables)
  }

  ghost predicate ItemSettled(ctx: Context, parent: string, item: Item, variables: map<string, Value>)
    decreases item
  {
    item.Sub? ==> Settled(ctx, parent, item.field, variables)
  }

  ghost predicate ArgsSettled(ctx: Context, defs: seq<ArgDef>, args: seq<(string, QueryValue)>, variables: map<string, Value>) {
    forall i :: 0 <= i < |defs| ==> Filled(ctx, defs[i], args) && Merged(ctx, defs[i], args, variables)
  }

  lemma ArgsSettledKept(ctx: Context, defs: seq<ArgDef>, args: seq<(string, QueryValue)>, a: map<string, Value>, b: map<string, Value>)
    requires ArgsSettled(ctx, defs, args, a) && VarsExtend(a, b)
    ensures ArgsSettled(ctx, defs, args, b)
  {
    forall i | 0 <= i < |defs| ensures Merged(ctx, defs[i], args, b) {
      MergedKept(ctx, defs[i], args, args, a, b);
    }
  }

  /** Later growth of the variables does not unsettle a field. */
  lemma {:induction false} SettledKept(ctx: Context, parent: string, f: QField, a: map<string, Value>, b: map<string, Value>)
    requires Settled(ctx, parent, f, a) && VarsExtend(a, b)
    ensures Settled(ctx, parent, f, b)
    decreases f
  {
    var def := FieldOn(ctx, parent, f.name);
    if def.Some? {
      ArgsSettledKept(ctx, def.value.args, f.args, a, b);
      forall i | 0 <= i < |f.items| ensures ItemSettled(ctx, def.value.base, f.items[i], b) {
        assert ItemSettled(ctx, def.value.base, f.items[i], a);
        if f.items[i].Sub? {
          SettledKept(ctx, def.value.base, f.items[i].field, a, b);
        }
      }
    }
  }

  /** The two argument passes together. */
  lemma ArgumentsDone(ctx: Context, defs: seq<ArgDef>, a: Args, added: Args, merged: Args)
    requires AddPresets(ctx, defs, a) == Ok(added) && merged == MergeInputs(ctx, defs, added)
    ensures ArgsGrow(a, merged) && ArgsSettled(ctx, defs, merged.list, merged.st.variables)
  {
    PresetsGrow(ctx, defs, a);
    MergeInputsGrow(ctx, defs, added);
    GrowTrans(a, added, merged);
    assert AllMerged(ctx, defs, merged);
    forall i | 0 <= i < |defs| ensures Filled(ctx, defs[i], merged.list) {
      FilledKept(ctx, defs[i], added.list, merged.list);
    }
  }

  ghost predicate StGrows(a: St, b: St) {
    VarsExtend(a.variables, b.variables) && (a.changed ==> b.changed)
  }

  /** Injection keeps everything the client wrote, settles what it reaches, and
      reports no change only when there was none. */
  lemma {:induction false} WalkSettles(ctx: Context, parent: string, f: QField, st: St)
    requires Walk(ctx, parent, f, st).Ok?
    ensures
      var (g, st2) := Walk(ctx, parent, f, st).value;
      FieldExtends(f, g) && StGrows(st, st2) && (!st2.changed ==> g == f && st2 == st) &&
      Settled(ctx, parent, g, st2.variables)
    decreases f, 0
  {
    var def := FieldOn(ctx, parent, f.name);
    if def.None? {
      SameExtends(f);
    } else {
      var a := Args(f.args, st);
      var added := AddPresets(ctx, def.value.args, a).value;
      var merged := MergeInputs(ctx, def.value.args, added);
      ArgumentsDone(ctx, def.value.args, a, added, merged);
      ItemsSettle(ctx, def.value.base, f.items, merged.st);
      var st2 := WalkItems(ctx, def.value.base, f.items, merged.st).value.1;
      VarsTrans(st.variables, merged.st.variables, st2.variables);
      ArgsSettledKept(ctx, def.value.args, merged.list, merged.st.variables, st2.variables);
    }
  }

  lemma {:induction false} SameExtends(f: QField)
    ensures FieldExtends(f, f)
    decreases f
  {
    forall i | 0 <= i < |f.items| ensures ItemExtends(f.items[i], f.items[i]) {
      if f.items[i].Sub? {
        SameExtends(f.items[i].field);
      }
    }
  }

  ghost predicate ItemsDone(ctx: Context, parent: string, items: seq<Item>, out: seq<Item>, variables: map<string, Value>) {
    |out| == |items| && forall i :: 0 <= i < |items| ==> ItemExtends(items[i], out[i]) && ItemSettled(ctx, parent, out[i], variables)
  }

  lemma {:induction false} ItemsSettle(ctx: Context, parent: string, items: seq<Item>, st: St)
    requires WalkItems(ctx, parent, items, st).Ok?
    ensures
      var (out, st2) := WalkItems(ctx, parent, items, st).value;
      ItemsDone(ctx, parent, items, out, st2.variables) && StGrows(st, st2) && (!st2.changed ==> out == items && st2 == st)
    decreases items, 1
  {
    if items != [] {
      var n := |items| - 1;
      var (init, st1) := WalkItems(ctx, parent, items[..n], st).value;
      ItemsSettle(ctx, parent, items[..n], st);
      var (last, st2) := WalkItem(ctx, parent, items[n], st1).value;
      ItemSettles(ctx, parent, items[n], st1);
      VarsTrans(st.variables, st1.variables, st2.variables);
      forall i | 0 <= i < n ensures ItemExtends(items[i], init[i]) && ItemSettled(ctx, parent, init[i], st2.variables) {
        assert items[..n][i] == items[i] && ItemSettled(ctx, parent, init[i], st1.variables);
        if init[i].Sub? {
          SettledKept(ctx, parent, init[i].field, st1.variables, st2.variables);
        }
      }
      assert items == items[..n] + [items[n]];
    }
  }

  lemma {:induction false} ItemSettles(ctx: Context, parent: string, item: Item, st: St)
    requires WalkItem(ctx, parent, item, st).Ok?
    ensures
      var (out, st2) := WalkItem(ctx, parent, item, st).value;
      ItemExtends(item, out) && ItemSettled(ctx, parent, out, st2.variables) && StGrows(st, st2) &&
      (!st2.changed ==> out == item && st2 == st)
    decreases item, 0
  {
    if item.Sub? {
      WalkSettles(ctx, parent, item.field, st);
    }
  }

  // ----- a settled field stays as it is -----

  lemma {:induction false} DirectivesSettled(ctx: Context, arg: ArgDef, ds: seq<Directive>, a: Args)
    requires forall j :: 0 <= j < |ds| && Valued(ds[j]) ==>
      ServerValue(ctx, arg.base, ds[j].value.value).Ok? && HasArg(a.list, arg.name)
    ensures AddDirectives(ctx, arg, ds, a) == Ok(a)
  {
    if ds != [] {
      DirectivesSettled(ctx, arg, ds[..|ds| - 1], a);
    }
  }

  lemma {:induction false} PresetsSettled(ctx: Context, defs: seq<ArgDef>, a: Args)
    requires forall i :: 0 <= i < |defs| ==> Filled(ctx, defs[i], a.list)
    ensures AddPresets(ctx, defs, a) == Ok(a)
  {
    if defs != [] {
      var n := |defs| - 1;
      PresetsSettled(ctx, defs[..n], a);
      assert Filled(ctx, defs[n], a.list);
      DirectivesSettled(ctx, defs[n], defs[n].directives, a);
    }
  }

  predicate SameButFlag(a: Args, b: Args) {
    b.list == a.list && b.st.variables == a.st.variables
  }

  lemma MergeInputSettled(ctx: Context, arg: ArgDef, a: Args)
    requires Merged(ctx, arg, a.list, a.st.variables)
    ensures SameButFlag(a, MergeInput(ctx, arg, a))
  {
    var presets := InputPresets(ctx, arg.base);
    if presets != [] {
      var i := FindArg(a.list, arg.name).value;
      var v := a.list[i].1;
      if v.Object? {
        PatchObjectSettled(ctx, v.fields, presets);
        assert a.list[i := (arg.name, v)] == a.list;
      } else if v.Variable? && a.st.variables[v.name].Obj? {
        PatchJsonSettled(ctx, a.st.variables[v.name].fields, presets);
        assert a.st.variables[v.name := a.st.variables[v.name]] == a.st.variables;
      }
    }
  }

  lemma {:induction false} MergeInputsSettled(ctx: Context, defs: seq<ArgDef>, a: Args)
    requires AllMerged(ctx, defs, a)
    ensures SameButFlag(a, MergeInputs(ctx, defs, a))
  {
    if defs != [] {
      var n := |defs| - 1;
      assert forall i :: 0 <= i < n ==> defs[..n][i] == defs[i];
      MergeInputsSettled(ctx, defs[..n], a);
      var init := MergeInputs(ctx, defs[..n], a);
      assert Merged(ctx, defs[n], a.list, a.st.variables);
      MergeInputSettled(ctx, defs[n], init);
    }
  }

  lemma {:induction false} WalkSettled(ctx: Context, parent: string, f: QField, st: St)
    requires Settled(ctx, parent, f, st.variables)
    ensures
      var r := Walk(ctx, parent, f, st);
      r.Ok? && r.value.0 == f && r.value.1.variables == st.variables
    decreases f, 0
  {
    var def := FieldOn(ctx, parent, f.name);
    if def.Some? {
      var a := Args(f.args, st);
      PresetsSettled(ctx, def.value.args, a);
      MergeInputsSettled(ctx, def.value.args, a);
      ItemsSettled(ctx, def.value.base, f.items, MergeInputs(ctx, def.value.args, a).st);
    }
  }

  lemma {:induction false} ItemsSettled(ctx: Context, parent: string, items: seq<Item>, st: St)
    requires forall i :: 0 <= i < |items| ==> ItemSettled(ctx, parent, items[i], st.variables)
    ensures
      var r := WalkItems(ctx, parent, items, st);
      r.Ok? && r.value.0 == items && r.value.1.variables == st.variables
    decreases items, 1
  {
    if items != [] {
      var n := |items| - 1;
      assert forall i :: 0 <= i < n ==> items[..n][i] == items[i];
      ItemsSettled(ctx, parent, items[..n], st);
      ItemUnmoved(ctx, parent, items[n], WalkItems(ctx, parent, items[..n], st).value.1);
      assert items == items[..n] + [items[n]];
    }
  }

  lemma {:induction false} ItemUnmoved(ctx: Context, parent: string, item: Item, st: St)
    requires ItemSettled(ctx, parent, item, st.variables)
    ensures
      var r := WalkItem(ctx, parent, item, st);
      r.Ok? && r.value.0 == item && r.value.1.variables == st.variables
    decreases item, 0
  {
    if item.Sub? {
      WalkSettled(ctx, parent, item.field, st);
    }
  }

  /** Main result: injecting twice is injecting once, for the document and for
      the variables, even where fields share variables. */
  lemma InjectionIdempotent(ctx: Context, queryType: string, items: seq<Item>, st: St, again: bool)
    requires WalkItems(ctx, queryType, items, st).Ok?
    ensures
      var (out, st2) := WalkItems(ctx, queryType, items, st).value;
      var second := WalkItems(ctx, queryType, out, St(st2.variables, again));
      second.Ok? && second.value.0 == out && second.value.1.variables == st2.variables
  {
    var (out, st2) := WalkItems(ctx, queryType, items, st).value;
    ItemsSettle(ctx, queryType, items, st);
    ItemsSettled(ctx, queryType, out, St(st2.variables, again));
  }

  // ----- hidden arguments hold the server's value -----

  function FirstValued(ds: seq<Directive>): Option<SchemaValue> {
    if ds == [] then None
    else
      var init := FirstValued(ds[..|ds| - 1]);
      if init.Some? then init else if Valued(ds[|ds| - 1]) then ds[|ds| - 1].value else None
  }

  /** Argument names are distinct, as in any valid SDL. */
  ghost predicate DistinctNames(defs: seq<ArgDef>) {
    forall i, j :: 0 <= i < j < |defs| ==> defs[i].name != defs[j].name
  }

  ghost predicate DistinctArguments(ctx: Context) {
    forall t, f :: FieldOn(ctx, t, f).Some? ==> DistinctNames(FieldOn(ctx, t, f).value.args)
  }

  lemma {:induction false} FirstValuedHas(ds: seq<Directive>)
    ensures FirstValued(ds).Some? ==> exists i :: 0 <= i < |ds| && Valued(ds[i]) && ds[i].value == FirstValued(ds)
    ensures FirstValued(ds).None? ==> forall i :: 0 <= i < |ds| ==> !Valued(ds[i])
  {
    if ds != [] {
      var n := |ds| - 1;
      FirstValuedHas(ds[..n]);
      assert forall i :: 0 <= i < n ==> ds[..n][i] == ds[i];
    }
  }

  /** On an argument the client did not write, the first directive decides. */
  lemma {:induction false} DirectivesFill(ctx: Context, arg: ArgDef, ds: seq<Directive>, a: Args)
    requires !HasArg(a.list, arg.name) && AddDirectives(ctx, arg, ds, a).Ok?
    ensures
      var r := AddDirectives(ctx, arg, ds, a).value;
      match FirstValued(ds)
      case None => r == a
      case Some(raw) => ServerValue(ctx, arg.base, raw).Ok? && r.list == a.list + [(arg.name, ServerValue(ctx, arg.base, raw).value)]
  {
    if ds != [] {
      var n := |ds| - 1;
      DirectivesFill(ctx, arg, ds[..n], a);
      var init := AddDirectives(ctx, arg, ds[..n], a).value;
      if FirstValued(ds[..n]).Some? {
        assert init.list[|a.list|].0 == arg.name;
        assert HasArg(init.list, arg.name);
      }
    }
  }

  /** The argument is present and starts from the server's value. */
  ghost predicate Served(ctx: Context, arg: ArgDef, args: seq<(string, QueryValue)>) {
    var raw := FirstValued(arg.directives);
    raw.Some? ==>
      HasArg(args, arg.name) && ServerValue(ctx, arg.base, raw.value).Ok? &&
      ValueExtends(ServerValue(ctx, arg.base, raw.value).value, args[FindArg(args, arg.name).value].1)
  }

  lemma ServedKept(ctx: Context, arg: ArgDef, a: seq<(string, QueryValue)>, b: seq<(string, QueryValue)>)
    requires Served(ctx, arg, a) && ArgsExtend(a, b)
    ensures Served(ctx, arg, b)
  {
    if FirstValued(arg.directives).Some? {
      HasArgKept(a, b, arg.name);
    }
  }

  /** Arguments with a valued @preset that the client did not write. */
  ghost predicate Unwritten(defs: seq<ArgDef>, from: nat, args: seq<(string, QueryValue)>) {
    forall i :: from <= i < |defs| && FirstValued(defs[i].directives).Some? ==> !HasArg(args, defs[i].name)
  }

  lemma StepServes(ctx: Context, defs: seq<ArgDef>, n: nat, a: Args, r: Args)
    requires n < |defs| && DistinctNames(defs) && Unwritten(defs, n, a.list)
    requires AddDirectives(ctx, defs[n], defs[n].directives, a) == Ok(r)
    ensures Served(ctx, defs[n], r.list) && Unwritten(defs, n + 1, r.list)
  {
    var arg := defs[n];
    FirstValuedHas(arg.directives);
    if FirstValued(arg.directives).Some? {
      DirectivesFill(ctx, arg, arg.directives, a);
      assert r.list[|a.list|].0 == arg.name && forall j :: 0 <= j < |a.list| ==> r.list[j] == a.list[j];
      assert HasArg(r.list, arg.name);
      assert FindArg(r.list, arg.name) == Some(|a.list|);
    } else {
      DirectivesSettled(ctx, arg, arg.directives, a);
    }
  }

  lemma {:induction false} PrefixServes(ctx: Context, defs: seq<ArgDef>, n: nat, a: Args)
    requires n <= |defs| && DistinctNames(defs) && Unwritten(defs, 0, a.list) && AddPresets(ctx, defs[..n], a).Ok?
    ensures
      var r := AddPresets(ctx, defs[..n], a).value;
      Unwritten(defs, n, r.list) && forall i :: 0 <= i < n ==> Served(ctx, defs[i], r.list)
  {
    if n > 0 {
      var k := n - 1;
      assert defs[..n][..k] == defs[..k] && defs[..n][k] == defs[k];
      PrefixServes(ctx, defs, k, a);
      var init, r := AddPresets(ctx, defs[..k], a).value, AddPresets(ctx, defs[..n], a).value;
      StepServes(ctx, defs, k, init, r);
      DirectivesGrow(ctx, defs[k], defs[k].directives, init);
      forall i | 0 <= i < k ensures Served(ctx, defs[i], r.list) {
        ServedKept(ctx, defs[i], init.list, r.list);
      }
    }
  }

  ghost predicate AllServed(ctx: Context, defs: seq<ArgDef>, args: seq<(string, QueryValue)>) {
    forall i :: 0 <= i < |defs| ==> Served(ctx, defs[i], args)
  }

  /** Validation keeps clients away from hidden arguments. */
  lemma ValidUnwritten(def: FieldDef, args: seq<(string, QueryValue)>)
    requires DistinctNames(def.args) && forall i :: 0 <= i < |args| ==> Visible(def, args[i].0)
    ensures Unwritten(def.args, 0, args)
  {
    forall i | 0 <= i < |def.args| && FirstValued(def.args[i].directives).Some? ensures !HasArg(args, def.args[i].name) {
      FirstValuedHas(def.args[i].directives);
      assert HasPreset(def.args[i]);
      forall j | 0 <= j < |args| ensures args[j].0 != def.args[i].name {
        assert Visible(def, args[j].0);
      }
    }
  }

  /** Every hidden argument of every field reached holds the server's value. */
  ghost predicate FieldServed(ctx: Context, parent: string, g: QField)
    decreases g
  {
    var def := FieldOn(ctx, parent, g.name);
    def.Some? && AllServed(ctx, def.value.args, g.args) &&
    forall i :: 0 <= i < |g.items| && g.items[i].Sub? && g.items[i].field.name != "__typename" ==>
      FieldServed(ctx, def.value.base, g.items[i].field)
  }

  lemma ArgumentsServed(ctx: Context, def: FieldDef, a: Args, added: Args, merged: Args)
    requires DistinctNames(def.args) && forall i :: 0 <= i < |a.list| ==> Visible(def, a.list[i].0)
    requires AddPresets(ctx, def.args, a) == Ok(added) && merged == MergeInputs(ctx, def.args, added)
    ensures AllServed(ctx, def.args, merged.list)
  {
    ValidUnwritten(def, a.list);
    assert def.args[..|def.args|] == def.args;
    PrefixServes(ctx, def.args, |def.args|, a);
    MergeInputsGrow(ctx, def.args, added);
    forall i | 0 <= i < |def.args| ensures Served(ctx, def.args[i], merged.list) {
      ServedKept(ctx, def.args[i], added.list, merged.list);
    }
  }

  lemma {:induction false} ItemAt(ctx: Context, parent: string, items: seq<Item>, i: nat, st: St) returns (before: St)
    requires i < |items| && WalkItems(ctx, parent, items, st).Ok?
    ensures
      var r := WalkItem(ctx, parent, items[i], before);
      r.Ok? && r.value.0 == WalkItems(ctx, parent, items, st).value.0[i]
  {
    var n := |items| - 1;
    if i < n {
      before := ItemAt(ctx, parent, items[..n], i, st);
    } else {
      before := WalkItems(ctx, parent, items[..n], st).value.1;
    }
  }

  /** Main result for hidden arguments: a validated client operation leaves
      injection with every @preset argument outside fragments set by the server. */
  lemma {:induction false} HiddenArgumentsServed(ctx: Context, parent: string, f: QField, st: St)
    requires DistinctArguments(ctx) && ValidField(ctx, parent, f) && Walk(ctx, parent, f, st).Ok?
    ensures FieldServed(ctx, parent, Walk(ctx, parent, f, st).value.0)
    decreases f
  {
    var def := FieldOn(ctx, parent, f.name).value;
    var a := Args(f.args, st);
    var added := AddPresets(ctx, def.args, a).value;
    var merged := MergeInputs(ctx, def.args, added);
    ArgumentsServed(ctx, def, a, added, merged);
    var g := Walk(ctx, parent, f, st).value.0;
    forall i | 0 <= i < |g.items| && g.items[i].Sub? && g.items[i].field.name != "__typename"
      ensures FieldServed(ctx, def.base, g.items[i].field)
    {
      var before := ItemAt(ctx, def.base, f.items, i, merged.st);
      WalkSettles(ctx, def.base, f.items[i].field, before);
      HiddenArgumentsServed(ctx, def.base, f.items[i].field, before);
    }
  }

  // ----- fragments -----

  /** Every hidden argument holds the server's value, inside fragments too. */
  ghost predicate ServedEverywhere(ctx: Context, parent: string, g: QField)
    decreases g
  {
    var def := FieldOn(ctx, parent, g.name);
    def.Some? && AllServed(ctx, def.value.args, g.args) &&
    forall i :: 0 <= i < |g.items| ==> ItemServed(ctx, def.value.base, g.items[i])
  }

  ghost predicate ItemServed(ctx: Context, parent: string, item: Item)
    decreases item
  {
    match item
    case Sub(g) => g.name != "__typename" ==> ServedEverywhere(ctx, parent, g)
    case Fragment(on, items) =>
      forall i :: 0 <= i < |items| ==> ItemServed(ctx, if on.Some? then on.value else parent, items[i])
  }

  /** The fragments of the client's document, as the client wrote them, hold the
      server's values. */
  ghost predicate FragmentsServed(ctx: Context, parent: string, f: QField)
    decreases f
  {
    var def := FieldOn(ctx, parent, f.name);
    def.Some? ==> forall i :: 0 <= i < |f.items| ==> ItemFragmentsServed(ctx, def.value.base, f.items[i])
  }

  ghost predicate ItemFragmentsServed(ctx: Context, parent: string, item: Item)
    decreases item
  {
    if item.Fragment? then ItemServed(ctx, parent, item)
    else item.field.name != "__typename" ==> FragmentsServed(ctx, parent, item.field)
  }

  /** Main result for fragments: a validated client operation leaves injection with
      every @preset argument set by the server exactly when its own fragments
      already carry the server's values. */
  lemma {:induction false} ServedEverywhereExact(ctx: Context, parent: string, f: QField, st: St)
    requires DistinctArguments(ctx) && ValidField(ctx, parent, f) && Walk(ctx, parent, f, st).Ok?
    ensures ServedEverywhere(ctx, parent, Walk(ctx, parent, f, st).value.0) <==> FragmentsServed(ctx, parent, f)
    decreases f
  {
    HiddenArgumentsServed(ctx, parent, f, st);
    var def := FieldOn(ctx, parent, f.name).value;
    var merged := MergeInputs(ctx, def.args, AddPresets(ctx, def.args, Args(f.args, st)).value);
    var g := Walk(ctx, parent, f, st).value.0;
    forall i | 0 <= i < |f.items| ensures ItemServed(ctx, def.base, g.items[i]) <==> ItemFragmentsServed(ctx, def.base, f.items[i]) {
      var before := ItemAt(ctx, def.base, f.items, i, merged.st);
      if f.items[i].Sub? {
        WalkSettles(ctx, def.base, f.items[i].field, before);
        if f.items[i].field.name != "__typename" {
          ServedEverywhereExact(ctx, def.base, f.items[i].field, before);
        }
      }
    }
  }

  /** No fragment at any depth. */
  predicate FragmentFree(f: QField)
    decreases f
  {
    forall i :: 0 <= i < |f.items| ==> f.items[i].Sub? && FragmentFree(f.items[i].field)
  }

  lemma {:induction false} FragmentFreeServed(ctx: Context, parent: string, f: QField)
    requires FragmentFree(f)
    ensures FragmentsServed(ctx, parent, f)
    decreases f
  {
    var def := FieldOn(ctx, parent, f.name);
    if def.Some? {
      forall i | 0 <= i < |f.items| ensures ItemFragmentsServed(ctx, def.value.base, f.items[i]) {
        FragmentFreeServed(ctx, def.value.base, f.items[i].field);
      }
    }
  }

  /** Without fragments the client cannot set a hidden argument. */
  lemma {:induction false} WithoutFragmentsServed(ctx: Context, parent: string, f: QField, st: St)
    requires DistinctArguments(ctx) && ValidField(ctx, parent, f) && FragmentFree(f) && Walk(ctx, parent, f, st).Ok?
    ensures ServedEverywhere(ctx, parent, Walk(ctx, parent, f, st).value.0)
  {
    FragmentFreeServed(ctx, parent, f);
    ServedEverywhereExact(ctx, parent, f, st);
  }

  /** `{ outer { ... on T { inner(arg: v) } } }` */
  function FragmentQuery(outer: string, t: string, inner: string, arg: string, v: QueryValue): QField {
    QField(outer, [], [Fragment(Some(t), [Sub(QField(inner, [(arg, v)], []))])])
  }

  /** The input that shows it: a hidden argument written inside a fragment is
      accepted, injection leaves the document as it is, and the upstream server
      gets the client's value. */
  lemma {:induction false} FragmentCarriesClientValue(ctx: Context, parent: string, outer: FieldDef, t: string, inner: FieldDef, k: nat,
    raw: SchemaValue, v: QueryValue, st: St)
    requires FieldOn(ctx, parent, outer.name) == Some(outer) && outer.args == [] && FieldOn(ctx, t, inner.name) == Some(inner)
    requires k < |inner.args| && FirstValued(inner.args[k].directives) == Some(raw) && inner.name != "__typename"
    requires ServerValue(ctx, inner.args[k].base, raw).Ok? ==> !ValueExtends(ServerValue(ctx, inner.args[k].base, raw).value, v)
    ensures
      var f := FragmentQuery(outer.name, t, inner.name, inner.args[k].name, v);
      ValidField(ctx, parent, f) && Walk(ctx, parent, f, st) == Ok((f, st)) && !ServedEverywhere(ctx, parent, f)
  {
    var f := FragmentQuery(outer.name, t, inner.name, inner.args[k].name, v);
    var g := f.items[0].items[0].field;
    assert f.items[..0] == [] && WalkItems(ctx, outer.base, f.items[..0], st) == Ok(([], st));
    assert [] + [f.items[0]] == f.items;
    assert WalkItem(ctx, outer.base, f.items[0], st) == Ok((f.items[0], st));
    assert WalkItems(ctx, outer.base, f.items, st) == Ok((f.items, st));
    assert AddPresets(ctx, outer.args, Args(f.args, st)) == Ok(Args(f.args, st));
    assert MergeInputs(ctx, outer.args, Args(f.args, st)) == Args(f.args, st);
    assert FindArg(g.args, inner.args[k].name) == Some(0);
    assert !Served(ctx, inner.args[k], g.args);
    assert !ServedEverywhere(ctx, t, g);
    assert !ItemServed(ctx, t, f.items[0].items[0]);
    assert !ItemServed(ctx, outer.base, f.items[0]);
  }
}
