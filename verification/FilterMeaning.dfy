/** Main results about filters: planning keeps what the JSON says, for every filter
    that is accepted, on every row and database. */
module FilterMeaning {
  import opened Values
  import opened Database
  import opened Ir
  import opened Planner
  import opened Meaning
  import opened FilterReading
  import opened FilterReadingCorrect
  import JsonAccess
  import opened FilterJson

  // ----- lists of predicates -----

  lemma {:induction false} AndReads(es: seq<BoolExp>, ts: seq<Tri>, db: Db, row: Row, root: Row)
    requires |es| == |ts| && forall i :: 0 <= i < |es| ==> Holds(es[i], db, row, root) == ts[i]
    ensures Holds(And(es), db, row, root) == All3(ts) && Holds(Conjoin(es), db, row, root) == All3(ts)
  {
    var all := Holds(And(es), db, row, root);
    if exists i :: 0 <= i < |es| && Holds(es[i], db, row, root).False? {
      assert exists i :: 0 <= i < |ts| && ts[i].False?;
    }
    assert all == All3(ts);
    if |es| == 1 {
      assert ts[0] == Holds(es[0], db, row, root);
    }
  }

  lemma {:induction false} OrReads(es: seq<BoolExp>, ts: seq<Tri>, db: Db, row: Row, root: Row)
    requires |es| == |ts| && forall i :: 0 <= i < |es| ==> Holds(es[i], db, row, root) == ts[i]
    ensures Holds(Or(es), db, row, root) == Any3(ts)
  {
    if exists i :: 0 <= i < |es| && Holds(es[i], db, row, root).True? {
      assert exists i :: 0 <= i < |ts| && ts[i].True?;
    }
  }

  // ----- columns -----

  ghost function OpMeaning(cell: Value, pgType: string, ctx: TableCtx, q: Scope, row: Row, root: Row): OpRelation {
    (p: CompareOp, raw: string, v: Value) =>
      CompareTruth(p, pgType, cell, q.db, row, root) == OpReads(raw, Operand(raw, v, q), cell, pgType, ctx, q, row, root)
  }

  lemma {:induction false} OpListMeans(ops: seq<(string, Value)>, cell: Value, pgType: string, ctx: TableCtx, q: Scope, row: Row, root: Row)
    requires ParseOpList(ops, ctx, q.md, q.s, q.perm).Ok?
    ensures
      var parsed := ParseOpList(ops, ctx, q.md, q.s, q.perm).value;
      |parsed| == |ops| && forall i :: 0 <= i < |ops| ==> OpMeaning(cell, pgType, ctx, q, row, root)(parsed[i], ops[i].0, ops[i].1)
  {
    var rel := OpMeaning(cell, pgType, ctx, q, row, root);
    forall raw, v | ParseOp(raw, v, ctx, q.md, q.s, q.perm).Ok? ensures rel(ParseOp(raw, v, ctx, q.md, q.s, q.perm).value, raw, v) {
      OpMeans(raw, v, cell, pgType, ctx, q, row, root);
    }
    OpsRelated(ops, ctx, q.md, q.s, q.perm, rel);
  }

  lemma {:induction false} ComparesMean(column: string, pgType: string, ops: seq<CompareOp>, ts: seq<Tri>, db: Db, row: Row, root: Row)
    requires |ops| == |ts| && forall i :: 0 <= i < |ops| ==> CompareTruth(ops[i], pgType, Get(row, column), db, row, root) == ts[i]
    ensures Holds(Compares(column, pgType, ops), db, row, root) == All3(ts)
  {
    var es := seq(|ops|, i requires 0 <= i < |ops| => Compare(column, pgType, ops[i]));
    forall i | 0 <= i < |es| ensures Holds(es[i], db, row, root) == ts[i] {
      assert es[i] == Compare(column, pgType, ops[i]);
    }
    AndReads(es, ts, db, row, root);
  }

  lemma {:induction false} ColumnMeansReads(column: string, pgType: string, sub: Value, ctx: TableCtx, q: Scope, row: Row, root: Row)
    requires ParseOps(sub, ctx, q.md, q.s, q.perm).Ok?
    ensures Holds(Compares(column, pgType, ParseOps(sub, ctx, q.md, q.s, q.perm).value), q.db, row, root) ==
            ColumnReads(SubstitutedOps(sub, q), Get(row, column), pgType, ctx, q, row, root)
  {
    var ops, cell, x := ParseOps(sub, ctx, q.md, q.s, q.perm).value, Get(row, column), SubstitutedOps(sub, q);
    if sub.Obj? {
      OpListMeans(sub.fields, cell, pgType, ctx, q, row, root);
      assert forall i :: 0 <= i < |ops| ==> OpMeaning(cell, pgType, ctx, q, row, root)(ops[i], sub.fields[i].0, sub.fields[i].1);
      ComparesMean(column, pgType, ops, OpTruths(x.fields, cell, pgType, ctx, q, row, root), q.db, row, root);
    } else {
      ResolvedSame(sub, q);
      LiteralSame(q.db.engine, x, pgType);
      assert ops == [Bin(Eq, x)];
    }
  }

  // ----- tables -----

  lemma {:induction false} TableAtSame(t: Table, q: Scope)
    requires RelationshipCtx(q.md, t, q.s, q.perm).Some?
    ensures t in q.md.tables && RelationshipCtx(q.md, t, q.s, q.perm).value == TableAt(t, q)
  {
  }

  lemma {:induction false} MappedMember(v: Value, w: Value, j: nat, key: string)
    requires v.Obj? && w.Obj? && |v.fields| == |w.fields| && j <= |v.fields|
    requires forall i :: 0 <= i < |v.fields| ==> v.fields[i].0 == w.fields[i].0
    ensures
      var a, b := JsonAccess.MemberOf(v, v.fields[j..], key), JsonAccess.MemberOf(w, w.fields[j..], key);
      (a.Some? <==> b.Some?) &&
      (a.Some? ==> exists i :: 0 <= i < |v.fields| && v.fields[i].0 == key && a.value == v.fields[i].1 && b.value == w.fields[i].1)
    decreases |v.fields| - j
  {
    if j < |v.fields| {
      assert v.fields[j..][0] == v.fields[j] && v.fields[j..][1..] == v.fields[j + 1..];
      assert w.fields[j..][0] == w.fields[j] && w.fields[j..][1..] == w.fields[j + 1..];
      MappedMember(v, w, j + 1, key);
    }
  }

  /** In the substituted `_exists` the table is the same and `_where` is substituted. */
  lemma {:induction false} ExistsMembers(sub: Value, q: Scope)
    requires JsonAccess.Member(sub, "_table").Some? && JsonAccess.Member(sub, "_where").Some?
    requires NamedTable(JsonAccess.Member(sub, "_table").value) in q.md.tables
    ensures
      var t := NamedTable(JsonAccess.Member(sub, "_table").value);
      var w := SubstitutedExists(sub, q);
      JsonAccess.Member(w, "_table") == JsonAccess.Member(sub, "_table") &&
      JsonAccess.Member(w, "_where") == Some(Substituted(JsonAccess.Member(sub, "_where").value, TableAt(t, q), q))
  {
    var w := SubstitutedExists(sub, q);
    assert sub.fields[0..] == sub.fields && w.fields[0..] == w.fields;
    MappedMember(sub, w, 0, "_table");
    MappedMember(sub, w, 0, "_where");
  }

  // ----- filters -----

  /** Main result: the planned filter has the truth value that the JSON, with the
      session's values put in, reads as. */
  lemma {:induction false} Means(v: Value, ctx: TableCtx, q: Scope, row: Row, root: Row)
    requires ParseBool(v, ctx, q.md, q.s, q.perm).Ok?
    ensures Holds(ParseBool(v, ctx, q.md, q.s, q.perm).value, q.db, row, root) == Reads(Substituted(v, ctx, q), ctx, q, row, root)
    decreases if q.perm then 0 else 3, v, 2
  {
    var cs := Conjuncts(v.fields, ctx, q.md, q.s, q.perm).value;
    FieldsMean(v.fields, ctx, q, row, root);
    AndReads(cs, FieldTruths(SubstitutedFields(v.fields, ctx, q), ctx, q, row, root), q.db, row, root);
  }

  lemma {:induction false} ConjunctAt(fields: seq<(string, Value)>, i: nat, ctx: TableCtx, md: Metadata, s: Session, perm: bool)
    requires Conjuncts(fields, ctx, md, s, perm).Ok? && i < |fields|
    ensures
      var cs := Conjuncts(fields, ctx, md, s, perm).value;
      |cs| == |fields| && Conjunct(fields[i], ctx, md, s, perm) == Ok(cs[i])
  {
    var n := |fields| - 1;
    if n > 0 {
      ConjunctAt(fields[..n], if i < n then i else 0, ctx, md, s, perm);
    }
  }

  lemma {:induction false} ItemAt(vs: seq<Value>, i: nat, ctx: TableCtx, md: Metadata, s: Session, perm: bool)
    requires ParseAll(vs, ctx, md, s, perm).Ok? && i < |vs|
    ensures
      var es := ParseAll(vs, ctx, md, s, perm).value;
      |es| == |vs| && ParseBool(vs[i], ctx, md, s, perm) == Ok(es[i])
  {
    var n := |vs| - 1;
    if n > 0 {
      ItemAt(vs[..n], if i < n then i else 0, ctx, md, s, perm);
    }
  }

  lemma {:induction false} FieldsMean(fields: seq<(string, Value)>, ctx: TableCtx, q: Scope, row: Row, root: Row)
    requires Conjuncts(fields, ctx, q.md, q.s, q.perm).Ok?
    ensures
      var cs := Conjuncts(fields, ctx, q.md, q.s, q.perm).value;
      |cs| == |fields| && forall i :: 0 <= i < |fields| ==>
        Holds(cs[i], q.db, row, root) == FieldReads((fields[i].0, SubstitutedUnder(fields[i], ctx, q)), ctx, q, row, root)
    decreases if q.perm then 0 else 3, fields, 1
  {
    if fields != [] {
      ConjunctAt(fields, 0, ctx, q.md, q.s, q.perm);
    }
    var cs := Conjuncts(fields, ctx, q.md, q.s, q.perm).value;
    forall i | 0 <= i < |fields|
      ensures Holds(cs[i], q.db, row, root) == FieldReads((fields[i].0, SubstitutedUnder(fields[i], ctx, q)), ctx, q, row, root)
    {
      ConjunctAt(fields, i, ctx, q.md, q.s, q.perm);
      FieldMeans(fields[i], ctx, q, row, root);
    }
  }

  lemma {:induction false} ItemsMean(vs: seq<Value>, ctx: TableCtx, q: Scope, row: Row, root: Row)
    requires ParseAll(vs, ctx, q.md, q.s, q.perm).Ok?
    ensures
      var es := ParseAll(vs, ctx, q.md, q.s, q.perm).value;
      |es| == |vs| && forall i :: 0 <= i < |vs| ==> Holds(es[i], q.db, row, root) == Reads(Substituted(vs[i], ctx, q), ctx, q, row, root)
    decreases if q.perm then 0 else 3, vs, 0
  {
    if vs != [] {
      ItemAt(vs, 0, ctx, q.md, q.s, q.perm);
    }
    var es := ParseAll(vs, ctx, q.md, q.s, q.perm).value;
    forall i | 0 <= i < |vs| ensures Holds(es[i], q.db, row, root) == Reads(Substituted(vs[i], ctx, q), ctx, q, row, root) {
      ItemAt(vs, i, ctx, q.md, q.s, q.perm);
      Means(vs[i], ctx, q, row, root);
    }
  }

  /** A key that is neither a connective nor `_exists`. */
  predicate NamesField(key: string) {
    key != "_and" && key != "$and" && key != "_or" && key != "$or" && key != "_not" && key != "$not" && key != "_exists"
  }

  lemma {:induction false} FieldMeans(field: (string, Value), ctx: TableCtx, q: Scope, row: Row, root: Row)
    requires Conjunct(field, ctx, q.md, q.s, q.perm).Ok?
    ensures Holds(Conjunct(field, ctx, q.md, q.s, q.perm).value, q.db, row, root) ==
            FieldReads((field.0, SubstitutedUnder(field, ctx, q)), ctx, q, row, root)
    decreases if q.perm then 0 else 3, field, 0
  {
    var (key, sub) := field;
    if NamesField(key) {
      NamedMeans(key, sub, ctx, q, row, root);
    } else if key == "_not" || key == "$not" {
      Means(sub, ctx, q, row, root);
    } else if key == "_exists" {
      ExistsMeans(sub, q, row, root);
    } else {
      ConnectiveMeans(key, sub, ctx, q, row, root);
    }
  }

  lemma {:induction false} NamedMeans(key: string, sub: Value, ctx: TableCtx, q: Scope, row: Row, root: Row)
    requires NamesField(key) && Conjunct((key, sub), ctx, q.md, q.s, q.perm).Ok?
    ensures Holds(Conjunct((key, sub), ctx, q.md, q.s, q.perm).value, q.db, row, root) ==
            FieldReads((key, SubstitutedUnder((key, sub), ctx, q)), ctx, q, row, root)
    decreases if q.perm then 0 else 3, sub, 5
  {
    if IsColumn(ctx, key, q.perm) {
      ColumnMeansReads(key, ctx.entry.columns[key], sub, ctx, q, row, root);
    } else {
      RelationshipMeans(key, sub, ctx, q, row, root);
    }
  }

  lemma {:induction false} RelationshipMeans(key: string, sub: Value, ctx: TableCtx, q: Scope, row: Row, root: Row)
    requires NamesField(key) && !IsColumn(ctx, key, q.perm) && Conjunct((key, sub), ctx, q.md, q.s, q.perm).Ok?
    ensures Holds(Conjunct((key, sub), ctx, q.md, q.s, q.perm).value, q.db, row, root) ==
            FieldReads((key, SubstitutedUnder((key, sub), ctx, q)), ctx, q, row, root)
    decreases if q.perm then 0 else 3, sub, 4
  {
    TargetSame(ctx.entry, key);
    RelatedMeans(key, sub, ctx, q, row, root);
  }

  lemma {:induction false} ConnectiveMeans(key: string, sub: Value, ctx: TableCtx, q: Scope, row: Row, root: Row)
    requires key == "_and" || key == "$and" || key == "_or" || key == "$or"
    requires Conjunct((key, sub), ctx, q.md, q.s, q.perm).Ok?
    ensures Holds(Conjunct((key, sub), ctx, q.md, q.s, q.perm).value, q.db, row, root) ==
            FieldReads((key, SubstitutedUnder((key, sub), ctx, q)), ctx, q, row, root)
    decreases if q.perm then 0 else 3, sub, 3
  {
    var es := ParseAll(sub.items, ctx, q.md, q.s, q.perm).value;
    var ts := ItemReads(SubstitutedItems(sub.items, ctx, q), ctx, q, row, root);
    ItemsMean(sub.items, ctx, q, row, root);
    AndReads(es, ts, q.db, row, root);
    OrReads(es, ts, q.db, row, root);
  }

  lemma {:induction false} ExistsMeans(sub: Value, q: Scope, row: Row, root: Row)
    requires ExistsPredicate(sub, q.md, q.s, q.perm).Ok?
    ensures Holds(ExistsPredicate(sub, q.md, q.s, q.perm).value, q.db, row, root) == ExistsReads(SubstitutedExists(sub, q), q)
    decreases if q.perm then 0 else 3, sub, 3
  {
    var t := TableOf(JsonAccess.Member(sub, "_table").value).value;
    var where := JsonAccess.Member(sub, "_where").value;
    TableAtSame(t, q);
    ExistsMembers(sub, q);
    var remote, rows := TableAt(t, q), Rows(q.db, t);
    forall i | 0 <= i < |rows|
      ensures Holds(ParseBool(where, remote, q.md, q.s, q.perm).value, q.db, rows[i], rows[i]) ==
              Reads(Substituted(where, remote, q), remote, q, rows[i], rows[i])
    {
      Means(where, remote, q, rows[i], rows[i]);
    }
  }

  lemma {:induction false} RelatedMeans(key: string, sub: Value, ctx: TableCtx, q: Scope, row: Row, root: Row)
    requires RelTarget(ctx.entry, key).Some?
    requires
      var t := RelTarget(ctx.entry, key).value.0;
      RelationshipCtx(q.md, t, q.s, q.perm).Some? &&
      var remote := RelationshipCtx(q.md, t, q.s, q.perm).value;
      ParseBool(sub, remote, q.md, q.s, q.perm).Ok? && (q.perm || CombinedFilter(remote.perms, remote, q.md, q.s).Ok?)
    ensures
      var (t, join) := RelTarget(ctx.entry, key).value;
      var remote := RelationshipCtx(q.md, t, q.s, q.perm).value;
      var inner := ParseBool(sub, remote, q.md, q.s, q.perm).value;
      t in q.md.tables && remote == TableAt(t, q) &&
      Truth(SomeRelated(if q.perm then inner else Restricted(inner, CombinedFilter(remote.perms, remote, q.md, q.s).value), join, row, Rows(q.db, t), q.db, root)) ==
      RelatedReads(Substituted(sub, remote, q), Some((t, join)), q, row, root)
    decreases if q.perm then 0 else 3, sub, 3
  {
    var (t, join) := RelTarget(ctx.entry, key).value;
    TableAtSame(t, q);
    var remote, rows := TableAt(t, q), Rows(q.db, t);
    var inner := ParseBool(sub, remote, q.md, q.s, q.perm).value;
    forall i | 0 <= i < |rows|
      ensures Holds(inner, q.db, rows[i], root) == Reads(Substituted(sub, remote, q), remote, q, rows[i], root)
      ensures !q.perm ==>
        (Holds(Restricted(inner, CombinedFilter(remote.perms, remote, q.md, q.s).value), q.db, rows[i], root).True? <==>
         Holds(inner, q.db, rows[i], root).True? && SomePermissionReads(remote, q, rows[i], root))
    {
      Means(sub, remote, q, rows[i], root);
      if !q.perm {
        RestrictedMeans(inner, remote, q, rows[i], root);
      }
    }
  }

  /** The inner filter under the related table's own. */
  function Restricted(inner: BoolExp, filter: Option<BoolExp>): BoolExp {
    if filter.None? then inner else And([inner, filter.value])
  }

  lemma {:induction false} RestrictedMeans(inner: BoolExp, remote: TableCtx, q: Scope, row: Row, root: Row)
    requires !q.perm && remote.perms != [] && CombinedFilter(remote.perms, remote, q.md, q.s).Ok?
    ensures Holds(Restricted(inner, CombinedFilter(remote.perms, remote, q.md, q.s).value), q.db, row, root).True? <==>
            Holds(inner, q.db, row, root).True? && SomePermissionReads(remote, q, row, root)
    decreases 2
  {
    var filter := CombinedFilter(remote.perms, remote, q.md, q.s).value;
    PermissionsMean(remote.perms, remote, q, row, root);
    if filter.Some? {
      AndOfTwo(And([inner, filter.value]), q.db, row, root);
    }
  }

  /** The combined filter is TRUE, or absent, where some permission's JSON is. */
  lemma {:induction false} PermissionsMean(perms: seq<SelectPermission>, ctx: TableCtx, q: Scope, row: Row, root: Row)
    requires !q.perm && perms != [] && CombinedFilter(perms, ctx, q.md, q.s).Ok?
    ensures
      var filter := CombinedFilter(perms, ctx, q.md, q.s).value;
      (filter.None? || Holds(filter.value, q.db, row, root).True?) <==> SomeReads(perms, ctx, q, row, root)
    decreases 1, 1
  {
    PartsMean(perms, ctx, q, row, root);
    var parts := FilterParts(perms, ctx, q.md, q.s).value;
    if parts.Some? && |parts.value| != 1 {
      assert Holds(Or(parts.value), q.db, row, root).True? <==> exists i :: 0 <= i < |parts.value| && Holds(parts.value[i], q.db, row, root).True?;
    }
  }

  ghost predicate SomeReads(perms: seq<SelectPermission>, ctx: TableCtx, q: Scope, row: Row, root: Row)
    requires !q.perm
  {
    exists i :: 0 <= i < |perms| && PermissionReads(perms[i], ctx, q, row, root)
  }

  /** The parsed parts, up to the first permission without a filter. */
  lemma {:induction false} PartAt(perms: seq<SelectPermission>, i: nat, ctx: TableCtx, md: Metadata, s: Session)
    requires FilterParts(perms, ctx, md, s).Ok? && i < |perms|
    ensures
      var parts := FilterParts(perms, ctx, md, s).value;
      if parts.None? then exists k :: 0 <= k < |perms| && Unrestricted(perms[k])
      else |parts.value| == |perms| && !Unrestricted(perms[i]) &&
           ParseBool(perms[i].filter, ctx.(perms := []), md, s, true) == Ok(parts.value[i])
  {
    var n := |perms| - 1;
    if n > 0 {
      PartAt(perms[..n], if i < n then i else 0, ctx, md, s);
      if FilterParts(perms[..n], ctx, md, s).value.None? {
        var k :| 0 <= k < n && Unrestricted(perms[..n][k]);
        assert Unrestricted(perms[k]);
      }
    }
  }

  lemma {:induction false} PartsMean(perms: seq<SelectPermission>, ctx: TableCtx, q: Scope, row: Row, root: Row)
    requires !q.perm && perms != [] && FilterParts(perms, ctx, q.md, q.s).Ok?
    ensures
      var parts := FilterParts(perms, ctx, q.md, q.s).value;
      if parts.None? then SomeReads(perms, ctx, q, row, root)
      else |parts.value| == |perms| && forall i :: 0 <= i < |perms| ==>
        (PermissionReads(perms[i], ctx, q, row, root) <==> Holds(parts.value[i], q.db, row, root).True?)
    decreases 1, 0
  {
    var parts := FilterParts(perms, ctx, q.md, q.s).value;
    PartAt(perms, 0, ctx, q.md, q.s);
    if parts.None? {
      var k :| 0 <= k < |perms| && Unrestricted(perms[k]);
      assert PermissionReads(perms[k], ctx, q, row, root);
    } else {
      forall i | 0 <= i < |perms| ensures PermissionReads(perms[i], ctx, q, row, root) <==> Holds(parts.value[i], q.db, row, root).True? {
        PartAt(perms, i, ctx, q.md, q.s);
        Means(perms[i].filter, ctx.(perms := []), q.(perm := true), row, root);
      }
    }
  }

  // ----- a user's filter has no references -----

  lemma {:induction false} UserSubstituted(v: Value, ctx: TableCtx, q: Scope)
    requires !q.perm
    ensures Substituted(v, ctx, q) == v
    decreases v, 2
  {
    if v.Obj? {
      var fields := SubstitutedFields(v.fields, ctx, q);
      forall i | 0 <= i < |v.fields| ensures fields[i] == v.fields[i] {
        UserUnder(v.fields[i], ctx, q);
      }
      assert fields == v.fields;
    }
  }

  lemma {:induction false} UserUnder(field: (string, Value), ctx: TableCtx, q: Scope)
    requires !q.perm
    ensures SubstitutedUnder(field, ctx, q) == field.1
    decreases field, 0
  {
    var (key, sub) := field;
    if key == "_and" || key == "$and" || key == "_or" || key == "$or" {
      if sub.Arr? {
        UserItems(sub.items, ctx, q);
      }
    } else if key == "_not" || key == "$not" {
      UserSubstituted(sub, ctx, q);
    } else if key == "_exists" {
      UserExists(sub, q);
    } else if IsColumn(ctx, key, q.perm) {
      UserOps(sub, q);
    } else {
      var target := Target(ctx.entry, key);
      if target.Some? && target.value.0 in q.md.tables {
        UserSubstituted(sub, TableAt(target.value.0, q), q);
      }
    }
  }

  lemma {:induction false} UserItems(items: seq<Value>, ctx: TableCtx, q: Scope)
    requires !q.perm
    ensures SubstitutedItems(items, ctx, q) == items
    decreases items, 0
  {
    var r := SubstitutedItems(items, ctx, q);
    forall i | 0 <= i < |items| ensures r[i] == items[i] {
      UserSubstituted(items[i], ctx, q);
    }
    assert r == items;
  }

  lemma {:induction false} UserOps(sub: Value, q: Scope)
    requires !q.perm
    ensures SubstitutedOps(sub, q) == sub
  {
    var r := SubstitutedOps(sub, q);
    if sub.Obj? {
      assert forall i :: 0 <= i < |sub.fields| ==> r.fields[i] == sub.fields[i];
      assert r.fields == sub.fields;
    }
  }

  lemma {:induction false} UserExists(sub: Value, q: Scope)
    requires !q.perm
    ensures SubstitutedExists(sub, q) == sub
    decreases sub, 3
  {
    var r, table := SubstitutedExists(sub, q), JsonAccess.Member(sub, "_table");
    if sub.Obj? && table.Some? && NamedTable(table.value) in q.md.tables {
      forall i | 0 <= i < |sub.fields| ensures r.fields[i] == sub.fields[i] {
        UserSubstituted(sub.fields[i].1, TableAt(NamedTable(table.value), q), q);
      }
      assert r.fields == sub.fields;
    }
  }

  /** So a user's filter means what its own JSON says. */
  lemma {:induction false} UserMeans(v: Value, ctx: TableCtx, q: Scope, row: Row, root: Row)
    requires !q.perm && ParseBool(v, ctx, q.md, q.s, false).Ok?
    ensures Holds(ParseBool(v, ctx, q.md, q.s, false).value, q.db, row, root) == Reads(v, ctx, q, row, root)
  {
    UserSubstituted(v, ctx, q);
    Means(v, ctx, q, row, root);
  }
}
