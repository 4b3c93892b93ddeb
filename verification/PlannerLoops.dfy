/** The planner's accumulating loops over filters: `parse_bool_exp` and
    `combined_filter` push onto a list and return early. Each is proved to compute
    the planning function of the same part. */
module PlannerLoops {
  import opened Values
  import opened Ir
  import opened Planner

  // ----- the first early return decides -----

  lemma {:induction false} ConjunctsStop(fields: seq<(string, Value)>, i: nat, ctx: TableCtx, md: Metadata, s: Session, perm: bool)
    requires i < |fields|
    ensures
      var upTo := Conjuncts(fields[..i + 1], ctx, md, s, perm);
      upTo.Err? ==> Conjuncts(fields, ctx, md, s, perm) == upTo
  {
    if i + 1 == |fields| {
      assert fields[..i + 1] == fields;
    } else {
      var n := |fields| - 1;
      assert fields[..n][..i + 1] == fields[..i + 1];
      ConjunctsStop(fields[..n], i, ctx, md, s, perm);
    }
  }

  lemma {:induction false} ParseAllStops(vs: seq<Value>, i: nat, ctx: TableCtx, md: Metadata, s: Session, perm: bool)
    requires i < |vs|
    ensures
      var upTo := ParseAll(vs[..i + 1], ctx, md, s, perm);
      upTo.Err? ==> ParseAll(vs, ctx, md, s, perm) == upTo
  {
    if i + 1 == |vs| {
      assert vs[..i + 1] == vs;
    } else {
      var n := |vs| - 1;
      assert vs[..n][..i + 1] == vs[..i + 1];
      ParseAllStops(vs[..n], i, ctx, md, s, perm);
    }
  }

  lemma {:induction false} FilterPartsStop(perms: seq<SelectPermission>, i: nat, ctx: TableCtx, md: Metadata, s: Session)
    requires i < |perms|
    ensures
      var upTo := FilterParts(perms[..i + 1], ctx, md, s);
      upTo.Err? || upTo.value.None? ==> FilterParts(perms, ctx, md, s) == upTo
  {
    if i + 1 == |perms| {
      assert perms[..i + 1] == perms;
    } else {
      var n := |perms| - 1;
      assert perms[..n][..i + 1] == perms[..i + 1];
      FilterPartsStop(perms[..n], i, ctx, md, s);
    }
  }

  // ----- parse_bool_exp -----

  method ParseBoolExp(v: Value, ctx: TableCtx, md: Metadata, s: Session, perm: bool) returns (r: Result<BoolExp, PlanError>)
    ensures r == ParseBool(v, ctx, md, s, perm)
    decreases if perm then 0 else 2, v, 2
  {
    if !v.Obj? {
      return Err(Invalid);
    }
    var conjuncts: seq<BoolExp> := [];
    for i := 0 to |v.fields|
      invariant Conjuncts(v.fields[..i], ctx, md, s, perm) == Ok(conjuncts)
    {
      assert v.fields[..i + 1][..i] == v.fields[..i];
      ConjunctsStop(v.fields, i, ctx, md, s, perm);
      var c := ParseConjunct(v.fields[i], ctx, md, s, perm);
      if c.Err? {
        return Err(c.error);
      }
      conjuncts := conjuncts + [c.value];
    }
    assert v.fields[..|v.fields|] == v.fields;
    r := Ok(Conjoin(conjuncts));
  }

  method ParseItems(vs: seq<Value>, ctx: TableCtx, md: Metadata, s: Session, perm: bool) returns (r: Result<seq<BoolExp>, PlanError>)
    ensures r == ParseAll(vs, ctx, md, s, perm)
    decreases if perm then 0 else 2, vs, 0
  {
    var out: seq<BoolExp> := [];
    for i := 0 to |vs|
      invariant ParseAll(vs[..i], ctx, md, s, perm) == Ok(out)
    {
      assert vs[..i + 1][..i] == vs[..i];
      ParseAllStops(vs, i, ctx, md, s, perm);
      var e := ParseBoolExp(vs[i], ctx, md, s, perm);
      if e.Err? {
        return Err(e.error);
      }
      out := out + [e.value];
    }
    assert vs[..|vs|] == vs;
    r := Ok(out);
  }

  method ParseConjunct(field: (string, Value), ctx: TableCtx, md: Metadata, s: Session, perm: bool) returns (r: Result<BoolExp, PlanError>)
    ensures r == Conjunct(field, ctx, md, s, perm)
    decreases if perm then 0 else 2, field, 0
  {
    var (rawKey, sub) := field;
    var key := Logical(rawKey);
    if key == "_and" || key == "_or" {
      if !sub.Arr? {
        return Err(Invalid);
      }
      var parts := ParseItems(sub.items, ctx, md, s, perm);
      r := if parts.Err? then Err(parts.error) else Ok(if key == "_and" then And(parts.value) else Or(parts.value));
    } else if key == "_not" {
      var inner := ParseBoolExp(sub, ctx, md, s, perm);
      r := if inner.Err? then inner else Ok(Not(inner.value));
    } else if key == "_exists" || (key in ctx.entry.columns && (perm || ColumnAllowed(ctx, key))) {
      r := Conjunct(field, ctx, md, s, perm);
    } else {
      r := ParseRelationship(key, field, ctx, md, s, perm);
    }
  }

  /** Any other key is a relationship. */
  method ParseRelationship(key: string, field: (string, Value), ctx: TableCtx, md: Metadata, s: Session, perm: bool)
    returns (r: Result<BoolExp, PlanError>)
    requires key == Logical(field.0) && key != "_and" && key != "_or" && key != "_not" && key != "_exists"
    requires !(key in ctx.entry.columns && (perm || ColumnAllowed(ctx, key)))
    ensures r == Conjunct(field, ctx, md, s, perm)
    decreases if perm then 0 else 2, field.1, 3
  {
    var target := RelTarget(ctx.entry, key);
    if target.None? {
      return Err(Invalid);
    }
    var remote := RelationshipCtx(md, target.value.0, s, perm);
    if remote.None? {
      return Err(Invalid);
    }
    var inner := ParseBoolExp(field.1, remote.value, md, s, perm);
    if inner.Err? {
      return inner;
    }
    var p := inner.value;
    if !perm {
      var filter := CombineFilters(remote.value.perms, remote.value, md, s);
      if filter.Err? {
        return Err(filter.error);
      }
      if filter.value.Some? {
        p := And([p, filter.value.value]);
      }
    }
    r := Ok(Relationship(target.value.0, target.value.1, p));
  }

  /** `combined_filter` */
  method CombineFilters(perms: seq<SelectPermission>, ctx: TableCtx, md: Metadata, s: Session)
    returns (r: Result<Option<BoolExp>, PlanError>)
    ensures r == CombinedFilter(perms, ctx, md, s)
    decreases 1, perms, 1
  {
    if perms == [] {
      return Ok(None);
    }
    var parts: seq<BoolExp> := [];
    for i := 0 to |perms|
      invariant FilterParts(perms[..i], ctx, md, s) == Ok(Some(parts))
    {
      assert perms[..i + 1][..i] == perms[..i];
      FilterPartsStop(perms, i, ctx, md, s);
      if Unrestricted(perms[i]) {
        return Ok(None);
      }
      var part := ParseBoolExp(perms[i].filter, ctx.(perms := []), md, s, true);
      if part.Err? {
        return Err(part.error);
      }
      parts := parts + [part.value];
    }
    assert perms[..|perms|] == perms;
    r := Ok(Some(if |parts| == 1 then parts[0] else Or(parts)));
  }
}
