/** Connections under a role: the row source that `build_connection` makes of the
    role's permissions and the user's `where`, so that a paging run is a listing of
    the rows the role sees. */
module RelayView {
  import opened Values
  import opened Database
  import opened Planner
  import opened SelectPlan
  import opened Selections
  import opened Meaning
  import opened RoleView
  import opened Relay
  import opened Paging

  function WhereArgs(where: Option<Value>): Args {
    Args(where, None, None, None, [], false, [])
  }

  /** The source of a connection on a table with a one-column key. */
  function SourceOf(ctx: TableCtx, pk: string, where: Option<Value>, sels: seq<Selection>, md: Metadata, s: Session): Result<Source, PlanError>
    requires pk in ctx.entry.columns
  {
    var user := UserWhere(ctx, List, WhereArgs(where), md, s);
    var fields := PlanFields(sels, ctx, md, s);
    var filter := CombinedFilter(ctx.perms, ctx, md, s);
    if fields.Err? then Err(fields.error)
    else if user.Err? then Err(user.error)
    else if filter.Err? then Err(filter.error)
    else Ok(Source(ctx.table, pk, ctx.entry.columns[pk], if user.value == [] then None else Some(user.value[0]), filter.value,
                   PermLimit(ctx.perms), fields.value))
  }

  /** The rows in scope are the rows the user wants among those the role sees. */
  lemma {:induction false} ScopeIsVisible(ctx: TableCtx, pk: string, where: Option<Value>, sels: seq<Selection>, w: World, src: Source, r: Row)
    requires pk in ctx.entry.columns && ctx.perms != [] && SourceOf(ctx, pk, where, sels, w.md, w.s) == Ok(src)
    ensures InScope(src, w.db, r) <==> Wanted(ctx, List, WhereArgs(where), w, r) && RowVisible(ctx, w, r)
  {
    CombinedFilterMeaning(ctx.perms, ctx, w, r);
    var user := UserWhere(ctx, List, WhereArgs(where), w.md, w.s).value;
    assert |user| <= 1;
  }

  ghost predicate Asked(ctx: TableCtx, where: Option<Value>, w: World, r: Row) {
    r in Rows(w.db, ctx.table) && Wanted(ctx, List, WhereArgs(where), w, r) && RowVisible(ctx, w, r)
  }

  lemma {:induction false} ListingIsVisible(ctx: TableCtx, pk: string, where: Option<Value>, sels: seq<Selection>, w: World, src: Source,
    all: seq<Row>)
    requires pk in ctx.entry.columns && ctx.perms != [] && SourceOf(ctx, pk, where, sels, w.md, w.s) == Ok(src) && IsListing(src, w.db, all)
    ensures forall r :: r in all <==> Asked(ctx, where, w, r)
  {
    forall r ensures r in all <==> Asked(ctx, where, w, r) {
      ScopeIsVisible(ctx, pk, where, sels, w, src, r);
    }
  }

  /** Main result, forward: the pages together are the rows the role sees and the
      user wants, in strictly ascending key order. */
  lemma {:induction false} ForwardRunShowsVisible(ctx: TableCtx, pk: string, where: Option<Value>, sels: seq<Selection>, w: World, src: Source,
    size: nat, pages: seq<seq<Row>>, keys: set<Value>, reply: Bound -> PageReply)
    requires pk in ctx.entry.columns && ctx.perms != [] && SourceOf(ctx, pk, where, sels, w.md, w.s) == Ok(src)
    requires Snapshot(src, w.db, keys) && 1 <= size && size + 1 < U64 && forall b :: reply(b) == Reply(src, w.db, size, false, b)
    requires ForwardRun(reply, pk, pages)
    ensures Ascending(w.db.engine, pk, Flatten(pages)) && forall r :: r in Flatten(pages) <==> Asked(ctx, where, w, r)
  {
    var all := ListingExists(src, w.db, keys);
    ForwardPartition(src, w.db, size, pages, keys, all, reply);
    ListingIsVisible(ctx, pk, where, sels, w, src, all);
  }

  /** Backward, the pages taken last first. */
  lemma {:induction false} BackwardRunShowsVisible(ctx: TableCtx, pk: string, where: Option<Value>, sels: seq<Selection>, w: World, src: Source,
    size: nat, pages: seq<seq<Row>>, keys: set<Value>, reply: Bound -> PageReply)
    requires pk in ctx.entry.columns && ctx.perms != [] && SourceOf(ctx, pk, where, sels, w.md, w.s) == Ok(src)
    requires Snapshot(src, w.db, keys) && 1 <= size && size + 1 < U64 && forall b :: reply(b) == Reply(src, w.db, size, true, b)
    requires BackwardRun(reply, pk, pages)
    ensures Ascending(w.db.engine, pk, FlattenBack(pages)) && forall r :: r in FlattenBack(pages) <==> Asked(ctx, where, w, r)
  {
    var all := ListingExists(src, w.db, keys);
    BackwardPartition(src, w.db, size, pages, keys, all, reply);
    ListingIsVisible(ctx, pk, where, sels, w, src, all);
  }

  /** Each node of a page shows the role's view of its row. */
  lemma {:induction false} NodeShowsVisible(ctx: TableCtx, pk: string, where: Option<Value>, sels: seq<Selection>, w: World, src: Source, r: Row)
    requires pk in ctx.entry.columns && ctx.perms != [] && SourceOf(ctx, pk, where, sels, w.md, w.s) == Ok(src) && InScope(src, w.db, r)
    requires EveryField(sels, ctx, w.md, w.s, SeenTest(w))
    ensures RowJson(src.fields, r, w.db, w.stringify) == SeeRow(sels, ctx, w, r)
  {
    ScopeIsVisible(ctx, pk, where, sels, w, src, r);
    RowSeen(sels, ctx, w, r);
  }
}
