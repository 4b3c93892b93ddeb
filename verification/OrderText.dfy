/** The function name of an ordering by an aggregate: `parse_order_by` takes it
    from the client's JSON, and the generator writes it without quotes. */
module OrderText {
  import opened Values
  import opened Database
  import opened Ir
  import opened Planner
  import opened OrderPlan
  import opened SelectPlan
  import opened Quoting
  import JsonAccess

  // ----- the text and how it is read -----

  /** `{function}({alias}.{column})` */
  function CallText(aggFn: string, alias: string, column: string): string {
    aggFn + "(" + Qualified(alias, column) + ")"
  }

  function Qualified(alias: string, column: string): string {
    QuoteIdent(alias) + "." + QuoteIdent(column)
  }

  /** A call: an unquoted name, which is folded to lower case, and the text behind
      the opening parenthesis. */
  function ReadCall(text: string): Option<(string, string)> {
    var w := Word(text);
    if w != "" && NameStart(w[0]) && |w| < |text| && text[|w|] == '(' then Some((JsonAccess.Lower(w), text[|w| + 1..])) else None
  }

  predicate PlainName(s: string) {
    s != "" && NameStart(s[0]) && forall i :: 0 <= i < |s| ==> NameChar(s[i]) && !('A' <= s[i] <= 'Z')
  }

  lemma {:induction false} LowerKeeps(s: string)
    ensures |JsonAccess.Lower(s)| == |s|
    ensures JsonAccess.Lower(s) == s <==> forall i :: 0 <= i < |s| ==> !('A' <= s[i] <= 'Z')
  {
    var l := JsonAccess.Lower(s);
    forall i | 0 <= i < |s| ensures l[i] == s[i] <==> !('A' <= s[i] <= 'Z') {
    }
    if forall i :: 0 <= i < |s| ==> !('A' <= s[i] <= 'Z') {
      assert l == s;
    }
  }

  /** Main result: the text is read as a call of that function on that column
      exactly when the name is a plain lower-case name. */
  lemma {:induction false} CallReadsBack(aggFn: string, alias: string, column: string)
    ensures ReadCall(CallText(aggFn, alias, column)) == Some((aggFn, Qualified(alias, column) + ")")) <==> PlainName(aggFn)
  {
    var rest := "(" + Qualified(alias, column) + ")";
    var text := CallText(aggFn, alias, column);
    assert text == aggFn + rest;
    var w := Word(text);
    LowerKeeps(w);
    if PlainName(aggFn) {
      WordOfName(aggFn, rest);
      assert text[|w| + 1..] == Qualified(alias, column) + ")";
    }
    if ReadCall(text) == Some((aggFn, Qualified(alias, column) + ")")) {
      assert w == text[..|aggFn|] == aggFn;
    }
  }

  /** The aggregate functions of the API have plain names. */
  lemma {:induction false} KnownNamesPlain(name: string)
    requires name == "count" || IsColumnOp(name)
    ensures PlainName(name)
  {
    assert PlainName("count");
    if name != "count" {
      OneOfPlain(name, ["sum", "avg", "max", "min", "stddev", "stddev_samp", "stddev_pop", "variance", "var_samp", "var_pop"]);
    }
  }

  lemma {:induction false} OneOfPlain(name: string, names: seq<string>)
    requires OneOf(name, names) && forall i :: 0 <= i < |names| ==> PlainName(names[i])
    ensures PlainName(name)
  {
    if names[0] != name {
      OneOfPlain(name, names[1..]);
    }
  }

  // ----- which names the planner takes -----

  /** `{<base>_aggregate: {aggFn: {column: asc}}}` */
  function OrderByAggregate(base: string, aggFn: string, column: string): Value {
    Obj([(base + Suffix(), Obj([(aggFn, Obj([(column, Text("asc"))]))]))])
  }

  lemma {:induction false} OneColumnOrder(column: string, remote: TableCtx, target: string -> OrderTarget)
    requires ColumnAllowed(remote, column)
    ensures ColumnOrders([(column, Text("asc"))], remote, target) == Ok([OrderBy(target(column), SortSpec(Asc, Last))])
  {
    var cols := [(column, Text("asc"))];
    assert cols[..0] == [] && ColumnOrders(cols[..0], remote, target) == Ok([]);
    var order := [OrderBy(target(column), SortSpec(Asc, Last))];
    assert [] + order == order;
  }

  lemma {:induction false} OneAggregateOrder(aggFn: string, column: string, t: Table, join: Join, filter: Option<BoolExp>, remote: TableCtx)
    requires aggFn != "count" && ColumnAllowed(remote, column)
    ensures AggregateOrders([(aggFn, Obj([(column, Text("asc"))]))], t, join, filter, remote) ==
            Ok([OrderBy(ByAggregate(t, join, aggFn, Some(column), filter), SortSpec(Asc, Last))])
  {
    var fields := [(aggFn, Obj([(column, Text("asc"))]))];
    var order := [OrderBy(ByAggregate(t, join, aggFn, Some(column), filter), SortSpec(Asc, Last))];
    OneColumnOrder(column, remote, c => ByAggregate(t, join, aggFn, Some(c), filter));
    assert fields[..0] == [] && AggregateOrders(fields[..0], t, join, filter, remote) == Ok([]);
    assert [] + order == order;
  }

  lemma {:induction false} OneOrderField(key: string, v: Value, ctx: TableCtx, md: Metadata, s: Session)
    requires OrderField(key, v, ctx, md, s).Ok?
    ensures ParseOrderBy(Obj([(key, v)]), ctx, md, s) == OrderField(key, v, ctx, md, s)
  {
    var fields := [(key, v)];
    var items, order := [Obj(fields)], OrderField(key, v, ctx, md, s).value;
    assert fields[..0] == [] && OrderFields(fields[..0], ctx, md, s) == Ok([]);
    assert [] + order == order;
    assert items[..0] == [] && OrderItems(items[..0], ctx, md, s) == Ok([]);
    assert OrderItems(items, ctx, md, s) == Ok(order);
  }

  /** Any name is taken: the ordering reaches the generator with the client's key
      as its function. */
  lemma {:induction false} AnyNameTaken(base: string, aggFn: string, column: string, t: Table, join: Join, remote: TableCtx, ctx: TableCtx,
    md: Metadata, s: Session)
    requires !ColumnAllowed(ctx, base + Suffix()) && FindRel(ctx.entry.arrayRels, base) == Some(Rel(base, Some((t, join))))
    requires TableCtxOf(md, t, s) == Some(remote) && CombinedFilter(remote.perms, remote, md, s).Ok?
    requires ColumnAllowed(remote, column) && aggFn != "count"
    ensures
      var filter := CombinedFilter(remote.perms, remote, md, s).value;
      ParseOrderBy(OrderByAggregate(base, aggFn, column), ctx, md, s) ==
      Ok([OrderBy(ByAggregate(t, join, aggFn, Some(column), filter), SortSpec(Asc, Last))])
  {
    var key := base + Suffix();
    var v := Obj([(aggFn, Obj([(column, Text("asc"))]))]);
    assert key[|key| - |Suffix()|..] == Suffix() && key[..|key| - |Suffix()|] == base;
    OneAggregateOrder(aggFn, column, t, join, CombinedFilter(remote.perms, remote, md, s).value, remote);
    OneOrderField(key, v, ctx, md, s);
  }

  // ----- plain keys give plain names -----

  predicate PlainTarget(target: OrderTarget) {
    target.ByAggregate? ==> PlainName(target.aggFn)
  }

  /** The keys below the entries of an ordering are plain names. */
  predicate PlainKeys(v: Value) {
    v.Obj? ==> forall i :: 0 <= i < |v.fields| ==> PlainName(v.fields[i].0)
  }

  predicate PlainItem(v: Value) {
    v.Obj? ==> forall i :: 0 <= i < |v.fields| ==> PlainKeys(v.fields[i].1)
  }

  predicate PlainOrder(v: Value) {
    if v.Arr? then forall i :: 0 <= i < |v.items| ==> PlainItem(v.items[i]) else PlainItem(v)
  }

  function PlainTest(): OrderTarget -> bool {
    target => PlainTarget(target)
  }

  lemma {:induction false} AggregatesPlain(fields: seq<(string, Value)>, t: Table, join: Join, filter: Option<BoolExp>, remote: TableCtx)
    requires forall i :: 0 <= i < |fields| ==> PlainName(fields[i].0)
    ensures EveryTarget(AggregateOrders(fields, t, join, filter, remote), PlainTest())
  {
    if fields != [] {
      var n := |fields| - 1;
      AggregatesPlain(fields[..n], t, join, filter, remote);
      var aggFn := fields[n].0;
      if aggFn == "count" {
        KnownNamesPlain(aggFn);
      } else if fields[n].1.Obj? {
        ColumnOrdersEvery(fields[n].1.fields, remote, c => ByAggregate(t, join, aggFn, Some(c), filter), PlainTest());
      }
    }
  }

  lemma {:induction false} OrderFieldPlain(key: string, v: Value, ctx: TableCtx, md: Metadata, s: Session)
    requires PlainKeys(v)
    ensures EveryTarget(OrderField(key, v, ctx, md, s), PlainTest())
  {
    if !ColumnAllowed(ctx, key) {
      var rel := OrderRel(ctx.entry, key);
      if rel.Some? && rel.value.0.target.Some? {
        var (t, join) := rel.value.0.target.value;
        RelatedOrdersPlain(t, join, rel.value.1, v, md, s);
      }
    }
  }

  lemma {:induction false} RelatedOrdersPlain(t: Table, join: Join, aggregate: bool, v: Value, md: Metadata, s: Session)
    requires PlainKeys(v)
    ensures EveryTarget(RelatedOrders(t, join, aggregate, v, md, s), PlainTest())
  {
    var remote := TableCtxOf(md, t, s);
    if remote.Some? && v.Obj? {
      var filter := CombinedFilter(remote.value.perms, remote.value, md, s);
      if filter.Ok? {
        if aggregate {
          AggregatesPlain(v.fields, t, join, filter.value, remote.value);
        } else {
          ColumnOrdersEvery(v.fields, remote.value, c => ByRelated(t, join, c, filter.value), PlainTest());
        }
      }
    }
  }

  lemma {:induction false} OrderFieldsPlain(fields: seq<(string, Value)>, ctx: TableCtx, md: Metadata, s: Session)
    requires forall i :: 0 <= i < |fields| ==> PlainKeys(fields[i].1)
    ensures EveryTarget(OrderFields(fields, ctx, md, s), PlainTest())
  {
    if fields != [] {
      var n := |fields| - 1;
      OrderFieldsPlain(fields[..n], ctx, md, s);
      OrderFieldPlain(fields[n].0, fields[n].1, ctx, md, s);
    }
  }

  lemma {:induction false} OrderItemsPlain(items: seq<Value>, ctx: TableCtx, md: Metadata, s: Session)
    requires forall i :: 0 <= i < |items| ==> PlainItem(items[i])
    ensures EveryTarget(OrderItems(items, ctx, md, s), PlainTest())
  {
    if items != [] {
      var n := |items| - 1;
      OrderItemsPlain(items[..n], ctx, md, s);
      if items[n].Obj? {
        OrderFieldsPlain(items[n].fields, ctx, md, s);
      }
    }
  }

  /** With plain keys every call the ordering writes is read as it was meant. */
  lemma {:induction false} PlainOrderReadsBack(v: Value, ctx: TableCtx, md: Metadata, s: Session, i: nat, alias: string)
    requires PlainOrder(v) && ParseOrderBy(v, ctx, md, s).Ok? && i < |ParseOrderBy(v, ctx, md, s).value|
    ensures
      var target := ParseOrderBy(v, ctx, md, s).value[i].target;
      target.ByAggregate? && target.over.Some? ==>
        ReadCall(CallText(target.aggFn, alias, target.over.value)) == Some((target.aggFn, Qualified(alias, target.over.value) + ")"))
  {
    OrderItemsPlain(if v.Arr? then v.items else [v], ctx, md, s);
    var target := ParseOrderBy(v, ctx, md, s).value[i].target;
    assert PlainTest()(target);
    if target.ByAggregate? && target.over.Some? {
      CallReadsBack(target.aggFn, alias, target.over.value);
    }
  }
}
