/** Webhook output typing is sound and complete, and its results contain only
    what was selected. */
module ActionCorrect {
  import opened Values
  import opened ActionTypes
  import opened Entries

  // ----- lookups find the first entry -----

  lemma {:induction false} ObjectSame(types: CustomTypes, name: string)
    ensures FindObject(types, name) == First(ByName(types), name)
  {
    if types != [] {
      ObjectSame(types[1..], name);
      assert ByName(types)[1..] == ByName(types[1..]);
      FirstOfRest(ByName(types), name);
    }
  }

  lemma {:induction false} DeclaredSame(fields: seq<(string, string)>, name: string)
    ensures FindField(fields, name) == First(fields, name)
  {
    if fields != [] {
      DeclaredSame(fields[1..], name);
      FirstOfRest(fields, name);
    }
  }

  lemma {:induction false} GetSame(fields: seq<(string, Json)>, name: string)
    ensures Get(fields, name) == First(fields, name)
  {
    if fields != [] {
      GetSame(fields[1..], name);
      FirstOfRest(fields, name);
    }
  }

  // ----- success is conformance -----

  /** Main result: a value is accepted exactly when it conforms. */
  lemma {:induction false} ValidateExact(types: CustomTypes, ty: TypeRef, v: Json, sel: seq<Selection>)
    ensures Validate(types, ty, v, sel).Ok? <==> Conforms(types, ty, v, sel)
    decreases v, 3, ty
  {
    if ty.Named? {
      ObjectSame(types, ty.name);
    }
    if v.JArr? && ty.List? {
      ItemsExact(types, ty.inner, v.items, sel);
    } else if v.JObj? && ty.Named? && FindObject(types, ty.name).Some? {
      ProjectExact(types, FindObject(types, ty.name).value, v, sel);
    }
  }

  lemma {:induction false} ItemsExact(types: CustomTypes, ty: TypeRef, items: seq<Json>, sel: seq<Selection>)
    ensures ValidateItems(types, ty, items, sel).Ok? <==> forall i :: 0 <= i < |items| ==> Conforms(types, ty, items[i], sel)
    decreases items, 0, ty
  {
    if items != [] {
      var n := |items| - 1;
      ItemsExact(types, ty, items[..n], sel);
      ValidateExact(types, ty, items[n], sel);
      assert forall i :: 0 <= i < n ==> items[..n][i] == items[i];
    }
  }

  ghost predicate AllFieldsConform(types: CustomTypes, obj: ObjectType, v: Json, sel: seq<Selection>)
    requires v.JObj?
  {
    forall i :: 0 <= i < |sel| && sel[i].Field? ==> FieldConforms(types, obj, v, sel[i])
  }

  lemma {:induction false} ProjectExact(types: CustomTypes, obj: ObjectType, v: Json, sel: seq<Selection>)
    requires v.JObj?
    ensures Project(types, obj, v, sel).Ok? <==> AllFieldsConform(types, obj, v, sel)
    decreases v, 2, |sel|
  {
    if sel != [] {
      var n := |sel| - 1;
      ProjectExact(types, obj, v, sel[..n]);
      assert forall i :: 0 <= i < n ==> sel[..n][i] == sel[i];
      assert AllFieldsConform(types, obj, v, sel) <==>
             AllFieldsConform(types, obj, v, sel[..n]) && (sel[n].Field? ==> FieldConforms(types, obj, v, sel[n]));
      if sel[n].Field? {
        FieldExact(types, obj, v, sel[n]);
      }
    }
  }

  lemma {:induction false} FieldExact(types: CustomTypes, obj: ObjectType, v: Json, f: Selection)
    requires v.JObj? && f.Field?
    ensures ProjectField(types, obj, v, f).Ok? <==> FieldConforms(types, obj, v, f)
    decreases v, 1, 0
  {
    var declared, raw := FindField(obj.fields, f.name), Get(v.fields, f.name);
    DeclaredSame(obj.fields, f.name);
    GetSame(v.fields, f.name);
    if declared.Some? && raw.Some? {
      GetSmaller(v, f.name);
      ValidateExact(types, ParseType(declared.value), raw.value, f.items);
    }
  }

  // ----- only what was selected -----

  /** Every key is the alias of a selected field, and its value is what that
      field's declaration and own selection allow, at every depth. */
  ghost predicate OnlySelected(types: CustomTypes, ty: TypeRef, out: Json, sel: seq<Selection>)
    decreases out, 1, ty
  {
    if out.JNull? then true
    else if ty.List? then out.JArr? && forall i :: 0 <= i < |out.items| ==> OnlySelected(types, ty.inner, out.items[i], sel)
    else
      var obj := FindObject(types, ty.name);
      if obj.None? then ScalarOk(ty.name, out)
      else out.JObj? && forall i :: 0 <= i < |out.fields| ==> EntrySelected(types, obj.value, out.fields[i], sel)
  }

  ghost predicate EntrySelected(types: CustomTypes, obj: ObjectType, entry: (string, Json), sel: seq<Selection>)
    decreases entry, 0
  {
    exists i :: 0 <= i < |sel| && sel[i].Field? && AliasOf(sel[i]) == entry.0 && FieldAllows(types, obj, entry.1, sel[i])
  }

  ghost predicate FieldAllows(types: CustomTypes, obj: ObjectType, w: Json, f: Selection)
    requires f.Field?
    decreases w, 2
  {
    var declared := FindField(obj.fields, f.name);
    if f.name == "__typename" then w == JStr(obj.name)
    else declared.Some? ==> OnlySelected(types, ParseType(declared.value), w, f.items)
  }

  lemma {:induction false} PutEntries(out: seq<(string, Json)>, key: string, v: Json, e: (string, Json))
    requires e in Put(out, key, v)
    ensures e in out || e == (key, v)
  {
    if out != [] && out[0].0 != key && e != out[0] {
      PutEntries(out[1..], key, v, e);
    }
  }

  lemma {:induction false} ResultOnlySelected(types: CustomTypes, ty: TypeRef, v: Json, sel: seq<Selection>)
    requires Validate(types, ty, v, sel).Ok?
    ensures OnlySelected(types, ty, Validate(types, ty, v, sel).value, sel)
    decreases v, 3, ty
  {
    if v.JArr? && ty.List? {
      ItemsOnlySelected(types, ty.inner, v.items, sel);
    } else if v.JObj? && ty.Named? && FindObject(types, ty.name).Some? {
      var obj := FindObject(types, ty.name).value;
      var out := Project(types, obj, v, sel).value;
      forall i | 0 <= i < |out| ensures EntrySelected(types, obj, out[i], sel) {
        ProjectOnlySelected(types, obj, v, sel, out[i]);
      }
    }
  }

  lemma {:induction false} ItemsOnlySelected(types: CustomTypes, ty: TypeRef, items: seq<Json>, sel: seq<Selection>)
    requires ValidateItems(types, ty, items, sel).Ok?
    ensures
      var out := ValidateItems(types, ty, items, sel).value;
      forall i :: 0 <= i < |out| ==> OnlySelected(types, ty, out[i], sel)
    decreases items, 0, ty
  {
    if items != [] {
      var n := |items| - 1;
      ItemsOnlySelected(types, ty, items[..n], sel);
      ResultOnlySelected(types, ty, items[n], sel);
    }
  }

  lemma {:induction false} ProjectOnlySelected(types: CustomTypes, obj: ObjectType, v: Json, sel: seq<Selection>, e: (string, Json))
    requires v.JObj? && Project(types, obj, v, sel).Ok? && e in Project(types, obj, v, sel).value
    ensures EntrySelected(types, obj, e, sel)
    decreases v, 2, |sel|
  {
    var n := |sel| - 1;
    var init := Project(types, obj, v, sel[..n]).value;
    if e in init {
      ProjectOnlySelected(types, obj, v, sel[..n], e);
      var i :| 0 <= i < n && sel[..n][i].Field? && AliasOf(sel[..n][i]) == e.0 && FieldAllows(types, obj, e.1, sel[..n][i]);
      assert sel[i] == sel[..n][i];
    } else {
      var w := ProjectField(types, obj, v, sel[n]).value;
      PutEntries(init, AliasOf(sel[n]), w, e);
      FieldOnlySelected(types, obj, v, sel[n]);
    }
  }

  lemma {:induction false} FieldOnlySelected(types: CustomTypes, obj: ObjectType, v: Json, f: Selection)
    requires v.JObj? && f.Field? && ProjectField(types, obj, v, f).Ok?
    ensures FieldAllows(types, obj, ProjectField(types, obj, v, f).value, f)
    decreases v, 1, 0
  {
    var declared, raw := FindField(obj.fields, f.name), Get(v.fields, f.name);
    if f.name != "__typename" && declared.Some? && raw.Some? && !raw.value.JNull? {
      GetSmaller(v, f.name);
      ResultOnlySelected(types, ParseType(declared.value), raw.value, f.items);
    }
  }

  // ----- every selected alias is answered, by its last selection -----

  lemma {:induction false} PutLookup(out: seq<(string, Json)>, key: string, v: Json, k: string)
    ensures Get(Put(out, key, v), k) == if k == key then Some(v) else Get(out, k)
  {
    if out != [] {
      if out[0].0 == key {
        assert ([(key, v)] + out[1..])[1..] == out[1..];
      } else {
        PutLookup(out[1..], key, v, k);
        assert ([out[0]] + Put(out[1..], key, v))[1..] == Put(out[1..], key, v);
      }
    }
  }

  /** The last selected field with an alias. */
  function LastWith(sel: seq<Selection>, alias: string): (f: Option<Selection>)
    ensures f.Some? ==> f.value.Field? && f.value in sel && AliasOf(f.value) == alias
  {
    if sel == [] then None
    else
      var f := sel[|sel| - 1];
      if f.Field? && AliasOf(f) == alias then Some(f) else LastWith(sel[..|sel| - 1], alias)
  }

  lemma {:induction false} AliasAnswered(types: CustomTypes, obj: ObjectType, v: Json, sel: seq<Selection>, alias: string)
    requires v.JObj? && Project(types, obj, v, sel).Ok?
    ensures
      var got := Get(Project(types, obj, v, sel).value, alias);
      var f := LastWith(sel, alias);
      (got.Some? <==> f.Some?) && (f.Some? ==> ProjectField(types, obj, v, f.value) == Ok(got.value))
  {
    if sel != [] {
      var n := |sel| - 1;
      AliasAnswered(types, obj, v, sel[..n], alias);
      if sel[n].Field? {
        PutLookup(Project(types, obj, v, sel[..n]).value, AliasOf(sel[n]), ProjectField(types, obj, v, sel[n]).value, alias);
      }
    }
  }
}
