/** Which value a webhook answer is given: a relation between the answer and the
    result that says nothing of how the result is computed. */
module ActionValues {
  import opened Values
  import opened ActionTypes
  import opened Entries
  import opened ActionCorrect

  // ----- the relation -----

  /** A selected field that answers under this key, and no later one does. */
  ghost predicate LastUnder(sel: seq<Selection>, key: string, i: int) {
    0 <= i < |sel| && Answers(sel[i], key) && forall j :: i < j < |sel| ==> !Answers(sel[j], key)
  }

  predicate Answers(f: Selection, key: string) {
    f.Field? && key == (if f.alias.Some? then f.alias.value else f.name)
  }

  ghost predicate DistinctKeys(fields: seq<(string, Json)>) {
    forall i, j :: 0 <= i < j < |fields| ==> fields[i].0 != fields[j].0
  }

  /** Null stays null and a scalar stays itself; a list keeps its length and order;
      an object has one entry for every key that is selected, and no other. */
  ghost predicate Shaped(types: CustomTypes, ty: TypeRef, v: Json, out: Json, sel: seq<Selection>)
    decreases v, 3, ty
  {
    if v.JNull? then out.JNull?
    else if ty.List? then
      v.JArr? && out.JArr? && |out.items| == |v.items| && forall i :: 0 <= i < |v.items| ==> Shaped(types, ty.inner, v.items[i], out.items[i], sel)
    else
      var obj := First(ByName(types), ty.name);
      if obj.None? then out == v
      else v.JObj? && out.JObj? && DistinctKeys(out.fields) && forall key :: KeyShaped(types, obj.value, v, out, sel, key)
  }

  /** Under a key stands what its last selected field asks for. */
  ghost predicate KeyShaped(types: CustomTypes, obj: ObjectType, v: Json, out: Json, sel: seq<Selection>, key: string)
    requires v.JObj? && out.JObj?
    decreases v, 2
  {
    var got := First(out.fields, key);
    (got.Some? <==> exists i :: LastUnder(sel, key, i)) &&
    forall i :: LastUnder(sel, key, i) && got.Some? ==> FieldShaped(types, obj, v, sel[i], got.value)
  }

  /** `__typename` is the type's name; a declared field has the related value, null
      when it is absent; an undeclared one has the raw value. */
  ghost predicate FieldShaped(types: CustomTypes, obj: ObjectType, v: Json, f: Selection, w: Json)
    requires v.JObj? && f.Field?
    decreases v, 1
  {
    var declared, raw := First(obj.fields, f.name), First(v.fields, f.name);
    if f.name == "__typename" then w == JStr(obj.name)
    else if raw.None? then w == JNull
    else if declared.None? then w == raw.value
    else
      raw.value < v && Shaped(types, ParseType(declared.value), raw.value, w, f.items)
  }

  // ----- every accepted result is so shaped -----

  lemma {:induction false} PutDistinct(out: seq<(string, Json)>, key: string, v: Json)
    requires DistinctKeys(out)
    ensures DistinctKeys(Put(out, key, v))
    ensures forall e :: e in Put(out, key, v) ==> e.0 == key || exists i :: 0 <= i < |out| && out[i].0 == e.0
  {
    if out != [] && out[0].0 != key {
      var rest := Put(out[1..], key, v);
      PutDistinct(out[1..], key, v);
      forall j | 0 <= j < |rest| ensures rest[j].0 != out[0].0 {
        assert rest[j] in rest;
      }
      assert forall i :: 0 <= i < |out| - 1 ==> out[1..][i] == out[i + 1];
    }
  }

  lemma {:induction false} ProjectDistinct(types: CustomTypes, obj: ObjectType, v: Json, sel: seq<Selection>)
    requires v.JObj? && Project(types, obj, v, sel).Ok?
    ensures DistinctKeys(Project(types, obj, v, sel).value)
  {
    if sel != [] {
      var n := |sel| - 1;
      ProjectDistinct(types, obj, v, sel[..n]);
      if sel[n].Field? {
        PutDistinct(Project(types, obj, v, sel[..n]).value, AliasOf(sel[n]), ProjectField(types, obj, v, sel[n]).value);
      }
    }
  }

  lemma {:induction false} LastSame(sel: seq<Selection>, key: string, i: nat)
    requires LastUnder(sel, key, i)
    ensures LastWith(sel, key) == Some(sel[i])
  {
    var n := |sel| - 1;
    if i < n {
      assert !Answers(sel[n], key);
      LastSame(sel[..n], key, i);
    }
  }

  lemma {:induction false} LastExists(sel: seq<Selection>, key: string)
    ensures LastWith(sel, key).Some? <==> exists i :: LastUnder(sel, key, i)
  {
    if sel != [] {
      var n := |sel| - 1;
      if Answers(sel[n], key) {
        assert LastUnder(sel, key, n);
      } else {
        LastExists(sel[..n], key);
        if exists i :: LastUnder(sel[..n], key, i) {
          var i :| LastUnder(sel[..n], key, i);
          assert LastUnder(sel, key, i);
        }
        if exists i :: LastUnder(sel, key, i) {
          var i :| LastUnder(sel, key, i);
          LastSame(sel, key, i);
        }
      }
    }
  }

  /** Main result: whatever is accepted is answered with exactly these values. */
  lemma {:induction false} ValidateShapes(types: CustomTypes, ty: TypeRef, v: Json, sel: seq<Selection>)
    requires Validate(types, ty, v, sel).Ok?
    ensures Shaped(types, ty, v, Validate(types, ty, v, sel).value, sel)
    decreases v, 3, ty
  {
    if v.JArr? && ty.List? {
      ItemsShape(types, ty.inner, v.items, sel);
    } else if ty.Named? {
      ObjectSame(types, ty.name);
      if v.JObj? && FindObject(types, ty.name).Some? {
        var obj := FindObject(types, ty.name).value;
        ProjectDistinct(types, obj, v, sel);
        forall key ensures KeyShaped(types, obj, v, Validate(types, ty, v, sel).value, sel, key) {
          KeyShapes(types, obj, v, sel, key);
        }
      }
    }
  }

  lemma {:induction false} ItemsShape(types: CustomTypes, ty: TypeRef, items: seq<Json>, sel: seq<Selection>)
    requires ValidateItems(types, ty, items, sel).Ok?
    ensures
      var out := ValidateItems(types, ty, items, sel).value;
      forall i :: 0 <= i < |items| ==> Shaped(types, ty, items[i], out[i], sel)
    decreases items, 0, ty
  {
    if items != [] {
      var n := |items| - 1;
      ItemsShape(types, ty, items[..n], sel);
      ValidateShapes(types, ty, items[n], sel);
    }
  }

  lemma {:induction false} KeyShapes(types: CustomTypes, obj: ObjectType, v: Json, sel: seq<Selection>, key: string)
    requires v.JObj? && Project(types, obj, v, sel).Ok?
    ensures KeyShaped(types, obj, v, JObj(Project(types, obj, v, sel).value), sel, key)
    decreases v, 2
  {
    var out := Project(types, obj, v, sel).value;
    AliasAnswered(types, obj, v, sel, key);
    GetSame(out, key);
    LastExists(sel, key);
    forall i | LastUnder(sel, key, i) && First(out, key).Some? ensures FieldShaped(types, obj, v, sel[i], First(out, key).value) {
      LastSame(sel, key, i);
      FieldShapes(types, obj, v, sel[i]);
    }
  }

  lemma {:induction false} FieldShapes(types: CustomTypes, obj: ObjectType, v: Json, f: Selection)
    requires v.JObj? && f.Field? && ProjectField(types, obj, v, f).Ok?
    ensures FieldShaped(types, obj, v, f, ProjectField(types, obj, v, f).value)
    decreases v, 1, 0
  {
    DeclaredSame(obj.fields, f.name);
    GetSame(v.fields, f.name);
    var declared, raw := FindField(obj.fields, f.name), Get(v.fields, f.name);
    if f.name != "__typename" && raw.Some? && declared.Some? {
      GetSmaller(v, f.name);
      if !raw.value.JNull? {
        ValidateShapes(types, ParseType(declared.value), raw.value, f.items);
      }
    }
  }
}
