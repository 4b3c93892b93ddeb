# dist-api: a verified model

dist-api compiles a GraphQL operation, under one role's permissions, into one
Postgres statement. This project models that path in Dafny, from the role and
the selection to the JSON the statement returns, together with the state
machines around it, and proves what each part promises over all inputs, all
databases and all runs.

`dafny verify dfyconfig.toml` checks everything.

## How it is built

* **Database, values.** `Values`, `Database`: three-valued truth, rows, tables,
  a stable sort, slices. Everything Postgres decides alone (casts, value order,
  LIKE, SQL functions, aggregates) is an arbitrary function in `Engine`, so
  every theorem holds for all of them.
* **SQL back end.** `Ir` is the planner's output and `Meaning` its direct
  nested-loop reading, with no aliases and no SQL. `Sql` is the emitted tree
  with an environment-based evaluator in which an inner alias can shadow an
  outer one. `SqlGen` and the class `Generator.Ctx` (one alias counter, advanced
  in place by recursive methods) compile one to the other; `PredicateCorrect`
  and `SelectCorrect` prove that the two readings agree, and `AliasCapture` that
  fresh aliases are necessary for it. `Rendering`, `RenderingCorrect`,
  `RenderedMeaning`, `Quoting`, `Lexing`, `LexingCorrect`, `RenderedText` and
  `OrderText` do the printed text, down to its characters, `JsonText`,
  `JsonReading` and `JsonRoundTrip` the JSON inside literals.
* **Permission planner.** `Planner`, `OrderPlan`, `SelectPlan` and the loops
  that run them (`PlannerLoops`, `OrderLoops`, `SelectPlanLoops`); `RoleView`
  specifies what a role sees without mentioning guards or merged predicates,
  `InheritedRoles` says the same in terms of the role hierarchy of `Roles`;
  `PlanShape`, `EndToEnd` and `OperationView` compose planner, compiler and
  evaluator; `RootedFilters` is about filters that refer to the root row.
* **Independent readings.** The planner's results are read once more from the
  JSON alone: `FilterReading` (filters, with `SessionNames` for references to
  session variables), `OrderReading` (with `Outcomes`), `MutationReading` and
  `InsertReading`. `FilterReadingCorrect`, `FilterMeaning`, `SessionReading`,
  `RoleReading`, `OrderMeaning`, `AnswerOrder` (on `Sorting`) and
  `TransactionReading` prove that the plans mean that; `Acceptance` says what an
  accepted selection guarantees.
* **What a role can learn.** `NonInterference`, `ResponseNonInterference` and
  `SqlNonInterference`: rows it cannot see. `CellFilters`, `ShownFilters`,
  `CellViews`, `CellAnswers` and `SqlCellAnswers`: cells it is not shown, in rows
  it does see. `HiddenReads` and `HiddenOrder` say exactly when a filter or an
  ordering depends on such cells, `HiddenCells` (with `Distinctness`) when a count
  does. `Sifting` and `RoleRows` hold the list lemmas behind these.
* **Paging.** `Paging`, `Relay`, `ConnectionSql` and `ConnectionCorrect` are
  cursor paging, `RelayView` puts it under a role's permissions.
* **Mutations.** `Storage`, `InsertPlan`, `MutationPlan`, `MutationSql`,
  `MutationGenerator`, `MutationCorrect`, `ReturningView`, `Transaction`.
* **Around it.** `WebSocket`, `WebSocketSafety`, `WebSocketFrames`,
  `Connection`; `Loader`, `LoaderCorrect`, `IncludeText`; `Presets`,
  `PresetsCorrect`, `PresetValues`, `Injector`; `ActionTypes`, `ActionCorrect`,
  `ActionValues`; `DepthGuard`.
* **Shared helpers.** `JsonAccess`, `FilterJson`, `Conjunctions`,
  `Selections`, `Entries`, `Strings`.

## Where the code does not meet the expectation

Each of these is kept as the code has it and shown by a lemma. Beside it stands
the condition under which the expectation holds, exact where the lemma is an
if-and-only-if.

* An aggregate select whose target list has no aggregate call (only `nodes`,
  under a permission limit) yields one SQL row per source row. It is right
  exactly when one row matches: `SelectCorrect.AggregateExact`,
  `EndToEnd.NodesOnlyUnderLimit`. Plans are free of this exactly when every
  aggregate selection contains a count, a column operator with columns, or
  `nodes` without a limit: `PlanShape.PlanWellFormed`.
* An aggregate selection of nothing but `__typename` is planned as a list:
  `RoleView.TypenameOnlyAggregate`; with one other entry the plan is right:
  `RoleView.SelectSeen`.
* `count(columns: ..)` counts cells that the role is shown as NULL:
  `HiddenCells.HiddenCellIsCounted`. It counts shown cells exactly when every
  cell of the column is shown or NULL (`HiddenCells.CountShownExact`), distinct
  ones exactly when every hidden value is also shown elsewhere
  (`HiddenCells.DistinctCountShownExact`), and always when no counted column
  needs a guard (`RoleView.AggregateSeen`). Over several columns a distinct count
  goes wrong when masking merges or splits tuples:
  `HiddenCells.WideDistinctCountExact`.
* A user's `where` and `order_by` read stored cells, shown or not. With a column
  that only some parents grant, two databases that show the role the same rows
  with the same cells are told apart by `{column: {_eq: v}}`
  (`HiddenReads.WhereTellsHiddenCells`) and by `order_by: {column: asc}`
  (`HiddenOrder.OrderTellsHiddenCells`). The operand of `_ceq` and its kin is not
  checked against the column mask at all, so a column that no parent grants can be
  probed: `HiddenReads.UngrantedOperandTold`. If every column that the filter and
  the ordering read, on every table they reach, is granted and needs no guard,
  neither depends on anything the role is not shown
  (`CellViews.WantedAlike`, `CellViews.SeenRowsAlike`, `CellAnswers.SelectAlike`,
  `SqlCellAnswers.SqlAnswersAlike`). Where the role's filters do not read the
  column, the condition is exact: the comparison is private if and only if no
  visible row hides its column (`HiddenReads.ComparisonPrivateExact`,
  `HiddenReads.OperandPrivateExact`, with `HiddenReads.HidesExact`), and the
  ordering if and only if no row hides the column while another visible row looks
  different (`HiddenOrder.OrderPrivateExact`).
* The function of an ordering by an aggregate is the client's own JSON key,
  whatever it is (`OrderText.AnyNameTaken`), and it is written without quotes. The
  text is read as a call of that function if and only if the key is a plain
  lower-case name (`OrderText.CallReadsBack`), as all aggregate names of the API
  are; with such keys every ordering reads back (`OrderText.PlainOrderReadsBack`).
* `_exists` in a user's `where`, and comparisons with a column of a related row,
  are not restricted to visible rows: `NonInterference.ExistsInterferes`,
  `NonInterference.RelatedColumnInterferes`. Filters that use them only on
  tables without a row filter do not interfere:
  `NonInterference.WhereNonInterference`.
* A permission filter with a `["$", column]` comparison, reached through a
  relationship, reads the outer row: `RootedFilters.RootedFilterReadsOuterRow`.
  A filter without such a comparison outside `_exists` is read as it is on its
  own table: `RootedFilters.PlannedRelationship`.
* A paged connection can exceed the role's permission limit:
  `Relay.OverLimitReply`. It stays within it exactly when the page size or the
  number of remaining rows does (`Relay.PagedWithinLimit`); without page
  arguments the limit applies (`Relay.UnpagedWithinLimit`). The largest page size
  wraps to LIMIT 0: `Relay.LargestPageIsEmpty`.
* A table named like a generated alias is captured in an ON CONFLICT predicate:
  `AliasCapture.NumberedNameIsCaptured`. A row source keeps the truth of all
  predicates exactly when its name can no longer be handed out:
  `AliasCapture.OlderIsExact`.
* A relationship-column comparison over an empty column mapping prints a WHERE
  with nothing in it: `RenderedMeaning.EmptyJoinUnreadable`; with a non-empty
  mapping every printed condition reads back: `RenderedMeaning.RenderedConditionMeaning`.
* Batch insert differs from one-by-one insert exactly when there are no presets
  and some object is empty beside a non-empty one:
  `InsertPlan.BatchInsertIsOneByOne`.
* An update whose user also assigns a preset column assigns it twice and is
  refused by the database: `MutationPlan.PresetClash`, an exact condition.
* `delete_<table>_by_pk` demands no key column, so without arguments it reaches
  every row the role may delete: `MutationPlan.DeleteByPkReaches`; with the whole
  key it reaches at most one: `MutationPlan.DeleteByPkReachesOne`.
* `returning` does not apply the role's select filter to the touched rows. A
  returned column shows what a select would show if and only if the filter passes
  the row, the column is guarded, or there is nothing to show:
  `ReturningView.ReturnedCellExact`.
* A client that writes a preset key of an input object keeps its own value;
  exactly the keys it leaves out get the preset's: `PresetValues.InputKeyValue`,
  `PresetValues.VariableKeyValue`.
* Preset arguments cannot be overridden outside fragments
  (`PresetsCorrect.HiddenArgumentsServed`), but inside one they can: validation and
  injection both pass over fragments, and the client's value is forwarded
  (`PresetsCorrect.FragmentCarriesClientValue`). Every @preset argument of the
  forwarded document holds the server's value if and only if the client's own
  fragments already do (`PresetsCorrect.ServedEverywhereExact`), in particular when
  there is no fragment at any depth (`PresetsCorrect.WithoutFragmentsServed`).
* Live queries whose id is not a string all share one key, and `stop` with the id
  a live query was started with ends it if and only if the id is a string:
  `WebSocketSafety.OwnIdStopsExact`.
* A check is violated by FALSE only; UNKNOWN passes (`MutationCorrect.Violates`
  in `MutationCorrect.StatementCorrect`).

## Model

| member | source | states |
|---|---|---|
| PredicateCorrect.BoolCorrect | crates/sqlgen/src/lib.rs:571-650 | the compiled condition has the predicate's three-valued truth on every row, root and database, for every BoolExp, including empty And/Or/In/Nin, root comparisons under nested relationships and `_exists` restarting the root |
| PredicateCorrect.CompareCorrect | crates/sqlgen/src/lib.rs:652-731 | each comparison operator keeps its truth value, including the first joined row of a relationship column |
| PredicateCorrect.InListMeaning | crates/sqlgen/src/lib.rs:661-676 | an IN list is TRUE on a match, UNKNOWN when only NULL prevents certainty, FALSE otherwise |
| PredicateCorrect.NumberedAliasIsOlder | crates/sqlgen/src/lib.rs:56-60 | an alias once handed out is different from every alias the counter hands out later |
| PredicateCorrect.DecimalInjective | crates/sqlgen/src/lib.rs:56-60 | different counter values print as different alias names |
| AliasCapture.NumberedNameIsCaptured | crates/sqlgen/src/lib.rs:835-840 | for every alias at or above the counter there is a predicate that holds and whose SQL, on a row source of that name, reads as FALSE |
| AliasCapture.OlderIsExact | crates/sqlgen/src/lib.rs:56-60 | a row source keeps the truth value of every predicate on every database if and only if its alias can no longer be handed out |
| SelectCorrect.SelectCorrect | crates/sqlgen/src/lib.rs:214-236 | evaluating the SQL of any well-formed nested select gives the JSON of its direct reading, keys in selection order, at any depth |
| SelectCorrect.TailCorrect | crates/sqlgen/src/lib.rs:337-487 | FROM, WHERE, ORDER BY, LIMIT and OFFSET keep exactly the rows the query selects, in the same order |
| SelectCorrect.RowCorrect | crates/sqlgen/src/lib.rs:490-559 | the row object of a table row equals the direct row JSON, including guarded cells and nested relationships |
| SelectCorrect.OrderTargetCorrect | crates/sqlgen/src/lib.rs:402-480 | each ORDER BY expression evaluates to the sort key of the direct reading, including related columns and aggregates under their filters |
| SelectCorrect.AggOpCorrect | crates/sqlgen/src/lib.rs:288-334 | counts and column aggregates range over the cells of the selected rows, guarded cells as NULL |
| SelectCorrect.CappedNodesCorrect | crates/sqlgen/src/lib.rs:240-287 | under a permission limit `nodes` is the prefix of the aggregated rows of length min(limit, n) for any limit and offset |
| SelectCorrect.AggregateExact | crates/sqlgen/src/lib.rs:240-287 | an aggregate select is compiled correctly if and only if its target list has an aggregate call or exactly one row is selected |
| SelectCorrect.OperationCorrect | crates/sqlgen/src/lib.rs:22-40 | the one statement of an operation returns every root field's JSON under its alias, in order |
| Generator.Ctx.BoolExpr | crates/sqlgen/src/lib.rs:571-650 | the recursive method that advances the counter in place emits the specified condition and leaves the specified counter |
| Generator.Ctx.SelectExpr | crates/sqlgen/src/lib.rs:214-236 | the same for selects |
| Generator.Ctx.FromWhereOrder | crates/sqlgen/src/lib.rs:337-487 | the same for the clause list grown in place |
| Generator.Ctx.Operation | crates/sqlgen/src/lib.rs:22-40 | the same for the whole operation |
| Database.SortPermutes | crates/sqlgen/src/lib.rs:402-480 | ORDER BY loses and invents no row |
| RenderedMeaning.RenderedConditionMeaning | crates/sqlgen/src/lib.rs:571-650 | reading the printed condition under SQL precedence (OR < AND < NOT < comparison) succeeds, stops exactly at the following text, and gives a tree with the predicate's truth value |
| RenderedMeaning.RenderedConjunctMeaning | crates/sqlgen/src/lib.rs:395-400 | the same in front of a further AND, as inside a WHERE clause |
| RenderedText.PrintedConditionMeaning | crates/sqlgen/src/lib.rs:571-731 | any text that spells a compiled condition, with whatever spaces keep its tokens apart, is lexed completely, has one reading under SQL precedence that stops exactly at the following tokens, and that reading has the predicate's truth value |
| RenderedText.SpacedText | crates/sqlgen/src/lib.rs:571-731 | every such condition has a spelling: one space before every token |
| RenderedText.PlannedOpKnown | crates/schema/src/predicate.rs:271-392 | the planner uses only operators whose text the lexer tells apart |
| LexingCorrect.SpellingLexes | crates/sqlgen/src/lib.rs:652-731 | lexing inverts every spelling of a token list: quoted names and literals, numbers, keywords, symbols and the operators of several words (NOT SIMILAR TO) |
| RenderedMeaning.BoolWritable | crates/sqlgen/src/lib.rs:571-650 | no compiled predicate contains an empty chain, list or WHERE |
| RenderedMeaning.CondSame | crates/sqlgen/src/lib.rs:571-650 | the tree read back has the same value in every environment, at any nesting of subqueries |
| RenderedMeaning.EmptyJoinUnreadable | crates/sqlgen/src/lib.rs:693-709 | a relationship-column comparison over an empty mapping is printed as text with no reading |
| RenderingCorrect.CondReads | crates/sqlgen/src/lib.rs:571-731 | every printed condition reads back as itself in front of any text that ends a condition |
| Quoting.QuotedReadsBack | crates/sqlgen/src/lib.rs:994-1000 | lexing a quoted literal or identifier before any text not starting with the same quote returns exactly the string and that text |
| Quoting.WrittenTextReadsBack | crates/sqlgen/src/lib.rs:994-1000 | in particular for the two functions the generator uses |
| Quoting.AdjacentQuoteRunsOn | crates/sqlgen/src/lib.rs:994-1000 | the side condition is necessary for every string |
| Roles.ExpandRole | crates/schema/src/plan.rs:526-552 | the worklist terminates on every hierarchy and returns, without duplicates, exactly the non-inherited roles reachable in at least one step |
| Roles.ResolveRolePerm | crates/schema/src/plan.rs:357-365 | terminates on every role graph; on acyclic ones the answer is the direct permission, else the parents' common answer |
| Roles.ResolveRec | crates/schema/src/plan.rs:367-403 | the recursion with a shared `visiting` set that keeps some leaf roles still gives that answer, and what it leaves behind are only roles that resolve to nothing |
| Roles.ConflictsIn | crates/schema/src/plan.rs:480-506 | reports a conflict exactly when there is no direct permission and two parents resolve to different answers |
| Roles.ConflictResolvesToNone | crates/schema/src/plan.rs:357-403 | a reported conflict resolves to no permission |
| PlannerLoops.ParseBoolExp | crates/schema/src/predicate.rs:16-180 | the loop that pushes conjuncts and returns at the first error computes the parsing function |
| PlannerLoops.CombineFilters | crates/schema/src/plan.rs:1090-1118 | the loop with its early return on an unrestricted permission computes the combined filter |
| FilterMeaning.Means | crates/schema/src/predicate.rs:16-448 | for every accepted filter, on every row, root and database, the planned predicate has the three-valued truth that its JSON reads as: each operator by the stored cell, equality, the value order and NULL, `_c*` operands, connectives, `_exists` and relationships (a user's also under the permissions of the related table), with a permission's session references replaced by their values |
| FilterReadingCorrect.OpMeans | crates/schema/src/predicate.rs:271-392 | the same for one operator, in both spellings |
| FilterMeaning.UserMeans | crates/schema/src/predicate.rs:28-63 | a user's filter has no references and means what its own JSON says |
| FilterMeaning.PermissionsMean | crates/schema/src/plan.rs:1090-1118 | the combined filter of a role is TRUE or absent exactly where some permission has no filter or JSON that is TRUE |
| SessionReading.FilterExplained | crates/schema/src/predicate.rs:490-513 | planning reports a missing session variable only where an operand refers to one that is missing, and never succeeds there |
| SessionReading.ReferencePasses | crates/schema/src/predicate.rs:490-513 | `{column: {_eq: reference}}` passes exactly the rows whose cell is not NULL and equals the variable's value cast to the column's type |
| SessionReading.ReferenceMissing | crates/schema/src/predicate.rs:490-513 | and without the variable it is the missing-variable error |
| JsonRoundTrip.WrittenReads | crates/sqlgen/src/lib.rs:1003-1018 | the JSON text written for an array or object literal is read, under the grammar of RFC 8259, as that value, before any text that does not go on with a digit |
| SelectPlanLoops.WalkTableSelection | crates/schema/src/plan.rs:1120-1390 | the selection loop computes the planned fields |
| SelectPlanLoops.PlanSelect | crates/schema/src/plan.rs:939-1076 | building a select step by step computes the planned query |
| Acceptance.ByPkFindsOne | crates/schema/src/plan.rs:939-1076 | an accepted `_by_pk` root on a table with distinct keys finds at most one row |
| Acceptance.AggregatesAllowed | crates/schema/src/plan.rs:1120-1390 | at any depth below an accepted selection, aggregates over relationships are only on tables where a permission of the role allows them |
| Acceptance.AggregateAccepted | crates/schema/src/plan.rs:1536-1630 | an accepted aggregate is a count of granted columns or one of the ten functions over granted columns |
| OrderLoops.ParseOrder | crates/schema/src/plan.rs:1632-1779 | the nested loops over items, keys, aggregates and columns compute the ordering, or the first error |
| OrderMeaning.OrderMeans | crates/schema/src/plan.rs:1632-1779 | for every accepted `order_by` and any two rows, the planned sort keys decide as the JSON reads: the leftmost entry on which the rows differ, in the direction and with the place for NULLs that its word says, by column, related column or aggregate over the related rows the role sees |
| OrderMeaning.WordMeans | crates/schema/src/plan.rs:2341-2360 | each of the six words means its direction and its place for NULLs |
| AnswerOrder.AnswerInOrder | crates/sqlgen/src/lib.rs:402-480 | where the value order is total, no answer has two rows of which the JSON wants the later one first |
| Sorting.SortInOrder | crates/sqlgen/src/lib.rs:402-480 | sorting by several keys puts no row before one that comes strictly earlier |
| AnswerOrder.WithinLimits | crates/schema/src/plan.rs:1041-1054 | an answer never has more rows than the user's limit, and a list never more than the largest limit of the role's permissions when all have one |
| AnswerOrder.Uncut | crates/schema/src/plan.rs:1041-1054 | and where no such limit binds, nothing is cut |
| OrderPlan.OrderByPlanned | crates/schema/src/plan.rs:1632-1779 | whatever JSON the client sends, an accepted ordering uses only columns granted to the role, on the table and on the related ones, and reads related tables only through the role's own filter |
| OrderText.AnyNameTaken | crates/schema/src/plan.rs:1701-1725 | any key but `count` below an aggregate ordering reaches the generator as the function name |
| OrderText.CallReadsBack | crates/sqlgen/src/lib.rs:454-457 | the text written for the aggregate is read as a call of that function on that column if and only if the name is a plain lower-case name |
| OrderText.PlainOrderReadsBack | crates/schema/src/plan.rs:1632-1779 | if the keys below the entries of an `order_by` are plain names, every aggregate call it writes is read as meant |
| RoleView.CombinedFilterMeaning | crates/schema/src/plan.rs:1090-1118 | the combined filter passes a row if and only if some of the permissions passes it, shortcuts included |
| InheritedRoles.FirstEntryCounts | crates/schema/src/plan.rs:331-336 | of several metadata entries for one role the first one counts, and there is none exactly when no entry names the role |
| InheritedRoles.RolePermissions | crates/schema/src/plan.rs:331-350 | the permissions collected for a role are exactly its direct one, or, without it, those of the non-inherited roles it reaches |
| InheritedRoles.RowVisibleToRole | crates/schema/src/plan.rs:331-350 | a row is visible if and only if the role's direct permission passes it, or it has none and the permission of some reachable non-inherited role does |
| InheritedRoles.CellShownToRole | crates/schema/src/plan.rs:152-168 | a cell is shown if and only if such a permission grants its column and passes its row |
| InheritedRoles.TableExistsFor | crates/schema/src/plan.rs:312-329 | a table exists for a role if and only if it is tracked and the role holds a permission on it |
| InheritedRoles.OpenSession | crates/schema/src/plan.rs:526-552 | the session's parents are the expansion of its role |
| RoleView.GuardMeaning | crates/schema/src/plan.rs:1199-1222 | on a visible row the cell guard passes if and only if some permission granting the column passes the row, shortcuts included |
| RoleView.RowsSeen | crates/schema/src/plan.rs:939-1076 | the planned query selects exactly the rows that are wanted and visible, in the asked order, cut by the smaller limit |
| RoleView.SeenRowsVisible | crates/schema/src/plan.rs:331-350 | every row returned passes some contributing parent's filter |
| RoleReading.IncludedReads | crates/schema/src/plan.rs:939-1076 | the rows of an accepted select are those that are joined to the enclosing row, that the user's JSON asks for (filter or key values) and that some permission's JSON passes |
| RoleReading.WantedReads | crates/schema/src/plan.rs:939-1076 | in particular a row is wanted exactly when the user's JSON reads TRUE on it |
| RoleReading.VisibleReads | crates/schema/src/plan.rs:1090-1118 | and visible exactly when some permission's JSON, under the session's values, does |
| RoleReading.CellReads | crates/schema/src/plan.rs:1199-1222 | a selected column is the row's cell, as GeoJSON or text where its type asks for it, where a granting permission's JSON passes the row, and NULL elsewhere |
| RoleView.SelectSeen | crates/schema/src/plan.rs:939-1076 | the plan of a role, at any depth of relationships and aggregates, means exactly the cell-wise union of what its permissions show; counts over columns read stored cells, and shown ones where no counted column needs a guard |
| RoleView.AggregateSeen | crates/schema/src/plan.rs:1536-1630 | a column aggregate ranges over exactly the cells a plain select of those rows would show, and so does a count whose columns need no guard |
| HiddenCells.CountShownExact | crates/schema/src/plan.rs:1556-1578 | a count of one column is the count of the shown cells if and only if each of its cells is shown or NULL |
| HiddenCells.DistinctCountShownExact | crates/schema/src/plan.rs:1556-1578 | a distinct count of one column is right if and only if every non-null value is shown in some row |
| HiddenCells.WideCountIsRows | crates/sqlgen/src/lib.rs:295-313 | a plain count over several columns counts every row, hidden cells or not |
| HiddenCells.WideDistinctCountExact | crates/sqlgen/src/lib.rs:295-313 | a distinct count over several columns: if masking never splits equal tuples, the count is right if and only if it never merges different ones, and the other way round |
| HiddenCells.HiddenCellIsCounted | crates/schema/src/plan.rs:1556-1578 | a role with two half-granting parents is shown NULL in a cell that its count counts |
| HiddenReads.WhereTellsHiddenCells | crates/schema/src/predicate.rs:92-108 | two databases of one row that show such a role the same cells, NULL in the column, of which a user's `{column: {_eq: v}}` wants one row and not the other |
| HiddenReads.ComparisonPrivateExact | crates/schema/src/predicate.rs:92-108 | when the role's filters do not read the column, `{column: {_eq: v}}` has the same outcome on all rows and databases that the role is shown as the same if and only if no visible row hides the column |
| HiddenReads.HidesExact | crates/schema/src/plan.rs:1199-1222 | a granted column is hidden exactly in the visible rows that its guard rejects |
| HiddenReads.OperandPrivateExact | crates/schema/src/predicate.rs:398-448 | the same for `{column: {_ceq: operand}}` on a readable column: if and only if no visible row hides the operand beside a non-null cell |
| HiddenReads.UngrantedOperandTold | crates/schema/src/predicate.rs:398-448 | a column that no permission grants: every visible row with a value in the compared column gives two databases that look the same and that `_ceq` tells apart |
| HiddenOrder.OrderTellsHiddenCells | crates/schema/src/plan.rs:1649-1657 | two rows with hidden cells, and the same rows with those cells exchanged, look the same and are given in opposite orders |
| HiddenOrder.OrderPrivateExact | crates/schema/src/plan.rs:1649-1657 | when the role's filters do not read the column, `order_by: {column: asc}` gives alike rows in alike order on all databases that look alike if and only if the limit is zero or no row hides the column while another visible row looks different |
| RoleView.PermLimitMeaning | crates/schema/src/plan.rs:127-139 | no limit iff some permission has none, otherwise the largest |
| RoleView.TypenameOnlyAggregate | crates/schema/src/plan.rs:1491-1534 | an aggregate selection without `aggregate` or `nodes` never gets the aggregate answer |
| EndToEnd.RoleSees | crates/schema/src/plan.rs:939-1076 | for every selection whose aggregate parts contain an aggregate call, the SQL of a role's root select, run on any database, returns what the specification of the role's view says; user filters, orderings and counts over columns read stored cells |
| OperationView.OperationSees | crates/sqlgen/src/lib.rs:22-40 | the one statement of a role's operation returns, under each root's alias and in order, what the role's view specifies |
| PlanShape.PlanWellFormed | crates/schema/src/plan.rs:939-1076 | a plan meets the generator's demands if and only if every aggregate selection it reaches, at any depth, contains an aggregate call |
| PlanShape.PlainPasses | crates/schema/src/plan.rs:1120-1390 | selections without aggregates satisfy every such condition |
| EndToEnd.NodesOnlyUnderLimit | crates/sqlgen/src/lib.rs:240-287 | under a permission limit an aggregate root asking only for `nodes` is answered correctly if and only if one row matches |
| NonInterference.FilterNonInterference | crates/schema/src/predicate.rs:127-167 | on databases that agree on the visible rows, a guarded filter has the same three-valued value on every row |
| NonInterference.ParseGuarded | crates/schema/src/predicate.rs:16-180 | the planner guards every table that a user filter reads, to any depth, if `_exists` and comparisons with related columns name only tables without a row filter |
| NonInterference.WhereNonInterference | crates/schema/src/predicate.rs:28-63 | with row-local permission filters, a user's `where` cannot tell such databases apart |
| NonInterference.ExistsInterferes | crates/schema/src/predicate.rs:64-91 | `_exists` on a table with a hidden row tells them apart |
| NonInterference.RelatedColumnInterferes | crates/schema/src/predicate.rs:398-450 | a comparison with a column of a related row tells databases apart that differ in a hidden row only |
| ResponseNonInterference.SelectSame | crates/schema/src/plan.rs:939-1076 | with row-local permissions, databases that agree on the visible rows give a role the same answer to every selection whose `where` is confined, with any `order_by`: rows, order, cells, nested selects and aggregates |
| SqlNonInterference.SqlAnswersSame | crates/sqlgen/src/lib.rs:214-236 | and so does the SQL statement |
| CellFilters.FilterSame | crates/schema/src/predicate.rs:16-180 | a filter whose columns, operands and join columns are granted and unguarded, on every table it reaches, has the same three-valued value on rows that are shown alike, in databases that are shown alike |
| ShownFilters.ParseShown | crates/schema/src/predicate.rs:16-180 | the planner's filter is such a filter when the client's JSON names only such columns |
| CellViews.WantedAlike | crates/schema/src/predicate.rs:16-180 | so a user's `where` or key arguments want both of two rows that are shown alike, or neither |
| CellViews.IncludedAlike | crates/schema/src/plan.rs:939-1076 | the rows a select includes on two such databases are pairwise alike, also below enclosing rows that join alike |
| CellViews.SeenRowsAlike | crates/schema/src/plan.rs:939-1076 | filtered, ordered and cut, the rows of a select are pairwise alike on such databases |
| CellAnswers.SelectAlike | crates/schema/src/plan.rs:939-1076 | databases that show a role the same rows and cells give the same answer to every selection, at any depth, whose filters, orderings, joins and counts read only granted, unguarded columns |
| SqlCellAnswers.SqlAnswersAlike | crates/sqlgen/src/lib.rs:214-236 | and so does the SQL statement |
| RootedFilters.PlannedRelationship | crates/schema/src/predicate.rs:127-167 | with a root-free filter on the related table, a planned relationship predicate holds if and only if some joined row that the role sees on its own satisfies the inner filter |
| RootedFilters.RootIrrelevant | crates/sqlgen/src/lib.rs:689-692 | a predicate without root comparisons outside `_exists` has the same value under every root |
| RootedFilters.RootedFilterReadsOuterRow | crates/schema/src/predicate.rs:127-167 | with the metadata filter `{a: {_ceq: ["$", b]}}` on the related table, a user's `{rel: {}}` is TRUE through a row that the role cannot see |
| Relay.ReplyIsSlice | crates/sqlgen/src/lib.rs:97-211 | one page, as trimmed and flagged by the statement, is a contiguous piece of the visible rows in key order, and both flags are exact |
| ConnectionCorrect.ConnectionIsCorrect | crates/sqlgen/src/lib.rs:97-211 | the connection statement (aggregate the edges, trim by ordinality, re-reverse, take cursors and lengths) returns the JSON of exactly the shown rows, their cursors and the flags, for any selection of its fields and any enclosing row |
| ConnectionCorrect.EndCursorLeadsOn | crates/sqlgen/src/lib.rs:63-76 | the endCursor of a page, decoded, is the bound from which the paging run continues |
| ConnectionCorrect.StartCursorLeadsBack | crates/sqlgen/src/lib.rs:63-76 | the same backwards |
| Relay.FetchedSlice | crates/schema/src/plan.rs:2218-2276 | the query fetches one row more than the page from the proper end of the remaining rows |
| Relay.ForwardPartition | crates/sqlgen/src/lib.rs:97-211 | following endCursor until hasNextPage is false yields every visible row exactly once in key order, each page ascending |
| Relay.BackwardPartition | crates/sqlgen/src/lib.rs:97-211 | the same backwards over startCursor and hasPreviousPage |
| Relay.ListingExists | crates/schema/src/plan.rs:2218-2276 | the visible rows have such a listing on every snapshot with distinct keys |
| Relay.PagedWithinLimit | crates/sqlgen/src/lib.rs:120-122 | a paged reply has at most as many rows as the permission limit if and only if the page size or the number of remaining rows is within it |
| Relay.UnpagedWithinLimit | crates/schema/src/plan.rs:2273-2275 | without page arguments the reply is the beginning of the rows, as long as the limit allows |
| Relay.OverLimitReply | crates/sqlgen/src/lib.rs:120-122 | a page of two under a limit of one returns two rows |
| Relay.LargestPageIsEmpty | crates/sqlgen/src/lib.rs:120-122 | at page size 2^64-1 the fetch limit wraps and nothing is shown |
| RelayView.ScopeIsVisible | crates/schema/src/plan.rs:2187-2276 | the rows of a role's connection are exactly the rows it sees that satisfy the user's `where` |
| RelayView.ForwardRunShowsVisible | crates/sqlgen/src/lib.rs:97-211 | a whole forward run lists exactly those rows, in strictly ascending key order |
| RelayView.BackwardRunShowsVisible | crates/sqlgen/src/lib.rs:97-211 | the same backwards |
| RelayView.NodeShowsVisible | crates/schema/src/plan.rs:2158-2168 | each node is the role's view of its row |
| Paging.ForwardRunEnds | crates/sqlgen/src/lib.rs:124-150 | every run that has begun can be carried to its end: the has-more flag becomes false after finitely many pages |
| Paging.BackwardRunEnds | crates/sqlgen/src/lib.rs:124-150 | the same for backward runs |
| InsertPlan.PlanInsert | crates/schema/src/plan_mutation.rs:180-256 | the nested loops over objects, keys and presets compute the grid, or the first error |
| MutationPlan.PlanInsertRoot | crates/schema/src/plan_mutation.rs:135-262 | the grid and the permission's check together, or the first error |
| InsertPlan.InsertGridShape | crates/schema/src/plan_mutation.rs:185-256 | no column twice; exactly the keys and known presets have a column; each is granted by mask or preset and typed by the catalog; each cell is the preset, else the object's value, else DEFAULT |
| InsertPlan.BatchInsertIsOneByOne | crates/sqlgen/src/lib.rs:774-801 | one batch stores exactly what inserting each object alone stores, for any ragged objects, presets, defaults and constraints; equal if and only if presets exist or no object is empty |
| Storage.StoreRowsAppends | crates/sqlgen/src/lib.rs:774-801 | an insert only appends its rows, and only to its own table |
| MutationPlan.PlanUpdate | crates/schema/src/plan_mutation.rs:378-541 | the argument loop computes the update plan, or the first error |
| MutationPlan.PlanDelete | crates/schema/src/plan_mutation.rs:543-616 | the same for deletes |
| MutationPlan.TargetMeaning | crates/schema/src/plan_mutation.rs:508-526 | the merged predicate is TRUE exactly where key, where and filter all are |
| MutationPlan.UpdateReaches | crates/schema/src/plan_mutation.rs:508-526 | an update reaches a row if and only if the row passes the role's filter and everything the caller asked for, and the caller asked for something |
| MutationPlan.DeleteReaches | crates/schema/src/plan_mutation.rs:591-603 | the same for deletes |
| MutationPlan.DeleteByPkReaches | crates/schema/src/plan_mutation.rs:562-603 | a by-key delete reaches exactly the permitted rows with the given key values: all permitted rows when none is given |
| MutationPlan.DeleteByPkReachesOne | crates/schema/src/plan_mutation.rs:562-603 | given every key column of a table with distinct keys, it reaches at most one row |
| MutationPlan.UserSetsGranted | crates/schema/src/plan_mutation.rs:408-437 | users assign only columns of the role's mask |
| MutationPlan.PresetClash | crates/schema/src/plan_mutation.rs:477-500 | the statement assigns no column twice if and only if neither the user's assignments nor the presets repeat a column and none of the former meets one of the latter |
| MutationReading.UpdateTargets | crates/schema/src/plan_mutation.rs:508-521 | a planned update reaches exactly the rows that the arguments' JSON asks for and that the permission's filter JSON passes |
| MutationReading.DeleteTargets | crates/schema/src/plan_mutation.rs:543-603 | the same for deletes, whose key arguments are columns of the primary key |
| MutationGenerator.CompileMutation | crates/sqlgen/src/lib.rs:765-903 | the generator with its own counter per root emits the specified statement |
| MutationCorrect.StatementCorrect | crates/sqlgen/src/lib.rs:852-968 | running a compiled insert, update or delete does exactly what its root means: the change, the check over the touched rows, and the response, all read against the tables before the statement |
| MutationCorrect.CheckCorrect | crates/sqlgen/src/lib.rs:946-965 | the count behind the check is positive if and only if some touched row makes the check FALSE |
| ReturningView.ReturnedCellExact | crates/schema/src/plan_mutation.rs:634-707 | a returned column shows what a select would show if and only if the select filter passes the row, the column is guarded, or the rendered cell is NULL |
| ReturningView.ReturnedRowsSeen | crates/schema/src/plan_mutation.rs:634-707 | when the select filter passes every touched row, `returning` is the role's view of them |
| Transaction.Executor.Execute | crates/server/src/gql.rs:545-610 | the world after an operation is the old one, or the left-to-right fold of all statements; data is returned in the second case only |
| Transaction.RunAll | crates/server/src/gql.rs:573-605 | the statement loop succeeds if and only if every statement in turn does, with that fold as result |
| Transaction.EveryStepPermitted | crates/server/src/gql.rs:573-605 | in a successful run each statement starts from what its predecessors left, touches only its table and only target rows, and no touched row makes its check FALSE |
| Transaction.UpdatedRowsWereVisible | crates/schema/src/plan_mutation.rs:508-526 | every row a planned update changes satisfied the role's filter when its statement ran |
| Transaction.DeletedRowsWereVisible | crates/schema/src/plan_mutation.rs:591-603 | every row a planned delete removes satisfied the role's filter when its statement ran, and all target rows are gone |
| TransactionReading.UpdatedRowsRead | crates/schema/src/plan_mutation.rs:378-541 | in a run that succeeds, a planned update leaves every row as the JSON says: a reached row has each `_set` literal, each `_inc` sum, each preset with its session value, every other cell as it was, and does not make the permission's check FALSE; any other row is unchanged |
| TransactionReading.InsertedRowsRead | crates/schema/src/plan_mutation.rs:135-262 | a planned insert appends one row per object, each with the permission's presets, else the object's own values, and none makes the permission's check FALSE |
| TransactionReading.DeletedRowsRead | crates/schema/src/plan_mutation.rs:543-616 | a planned delete leaves, in order, exactly the rows that the arguments do not ask for or that the permission's filter does not pass |
| WebSocketSafety.RunSafe | crates/server/src/ws.rs:42-215 | over all interleavings, also between the two sends of one message: every running poller is the map entry of its id key, at most one timer is pending, frames carry their poller's id, and a running poller remembers what it last sent |
| WebSocketSafety.NothingAfterExit | crates/server/src/ws.rs:208-215 | once the loop has exited no poller runs and no timer is pending |
| WebSocketSafety.OnePerKey | crates/server/src/ws.rs:117-155 | at most one poller runs per id key, at most one timer |
| WebSocketSafety.FramesDiffer | crates/server/src/ws.rs:123-152 | consecutive data frames of one live query differ |
| WebSocketSafety.ClientIsCurrent | crates/server/src/ws.rs:123-152 | after a delivered poll the last frame of the live query is the current answer |
| WebSocketSafety.StoppedNeverSends | crates/server/src/ws.rs:172-178 | a live query stopped by its string id never sends again, whatever follows |
| WebSocketSafety.RestartedNeverSends | crates/server/src/ws.rs:153-155 | nor does one whose id key is started again |
| WebSocketSafety.OwnIdStopsExact | crates/server/src/ws.rs:172-191 | `stop` with the id a live query was started with ends it if and only if that id is a string |
| WebSocketFrames.RequestAnswered | crates/server/src/ws.rs:109-170 | a request that opens no live query is answered with exactly two frames under its id, whatever polls fall between them: the session's errors or the request's answer, and the completion |
| WebSocketFrames.InitAnswered | crates/server/src/ws.rs:56-107 | `connection_init` takes over the headers and is answered with exactly the acknowledgement and the keep-alive |
| WebSocketFrames.HeadersRead | crates/server/src/ws.rs:61-72 | a header has the value of the last valid field that sets it, in any case of its name |
| WebSocketFrames.HeadersKept | crates/server/src/ws.rs:61-72 | a header that no field validly sets keeps its old value, or stays absent |
| WebSocketFrames.SubscriptionOpened | crates/server/src/ws.rs:124-156 | a `start` for a subscription opens one running live query under its id and sends nothing |
| WebSocketFrames.OtherMessages | crates/server/src/ws.rs:191-206 | `connection_terminate` ends the connection, and a message of no known type is only an error |
| Connection.Connection.Receive | crates/server/src/ws.rs:49-206 | handling one frame in place, up to its first send, is one step of the protocol and keeps it safe |
| Connection.Connection.FinishMessage | crates/server/src/ws.rs:80-107 | the second send of a message, and the timer set after it, is one more step |
| Connection.Connection.PollOnce | crates/server/src/ws.rs:123-152 | so is one round of a polling task |
| Connection.Connection.Shutdown | crates/server/src/ws.rs:208-215 | aborting the map's entries and the timer is the protocol's exit |
| Loader.Resolver.LoadTracked | crates/metadata/src/loader.rs:148-160 | the recursion over one shared `seen` set terminates on every file system, computes the specified load and restores `seen` on success |
| Loader.Resolver.ResolveIncludes | crates/metadata/src/loader.rs:162-198 | the same for a document inside a file |
| IncludeText.IncludeExact | crates/metadata/src/loader.rs:162-198 | a node is an include of a name if and only if it is the text `!include`, one space and the name between blanks, or has the tag with any number of exclamation marks and that text; a tag without text is the malformed case |
| LoaderCorrect.LoadVerdict | crates/metadata/src/loader.rs:148-198 | loading succeeds if and only if no include chain from the root revisits a file, meets a missing file or a malformed include; an error names what some chain does |
| LoaderCorrect.CycleExactly | crates/metadata/src/loader.rs:148-160 | when all reached files exist and are well formed, a cycle is reported if and only if some chain revisits a file |
| LoaderCorrect.LoadIsFullSplice | crates/metadata/src/loader.rs:162-198 | a successful load is the complete splice, with no include left outside mapping keys and foreign tags |
| PresetsCorrect.WalkSettles | crates/server/src/remote.rs:550-660 | injection keeps every argument, key and variable value the client wrote, leaves nothing further to inject, and reports no change only when there was none |
| PresetValues.InjectedArguments | crates/server/src/remote.rs:550-660 | every declared argument of every field reached is exactly the client's value, else the server's, with its input presets merged in |
| PresetValues.InputKeyValue | crates/server/src/remote.rs:616-652 | a preset key of an input argument holds the client's value if the client wrote it, else the first preset's, and the last preset's where there was no argument |
| PresetValues.InjectedVariable | crates/server/src/remote.rs:627-640 | a variable ends as the client sent it with the presets of all input arguments that use it merged in, in walk order |
| PresetValues.VariableKeyValue | crates/server/src/remote.rs:627-640 | a key of such a variable holds the client's value if the client wrote it, else the first preset's |
| PresetValues.ServerValueReads | crates/server/src/remote.rs:565-605 | the server's value of a preset is the session variable's value coerced to the argument's type, or the schema value itself; it fails only for a missing variable or one that does not coerce |
| PresetsCorrect.HiddenArgumentsServed | crates/server/src/remote.rs:283-328 | after validation and injection every @preset argument outside fragments holds the server's value |
| PresetsCorrect.ServedEverywhereExact | crates/server/src/remote.rs:661-666 | every @preset argument of the forwarded document, inside fragments too, holds the server's value if and only if the client's own fragments already hold it |
| PresetsCorrect.WithoutFragmentsServed | crates/server/src/remote.rs:311-326 | in particular when the operation has no fragment at any depth |
| PresetsCorrect.FragmentCarriesClientValue | crates/server/src/remote.rs:311-326 | a hidden argument written inside a fragment is accepted and forwarded with the client's value |
| PresetsCorrect.InjectionIdempotent | crates/server/src/remote.rs:476-686 | a second injection changes neither document nor variables |
| Injector.Injector.WalkField | crates/server/src/remote.rs:550-660 | the walk that updates `variables` and `changed` in place computes the specified injection |
| ActionTypes.SpelledParses | crates/server/src/action.rs:371-390 | parsing inverts every spelling of a type reference, for all nestings of list and non-null and any spacing (section 2.11 of the GraphQL specification, October 2021) |
| ActionTypes.PrintParses | crates/server/src/action.rs:371-390 | in particular it inverts the printer |
| ActionTypes.ProjectObject | crates/server/src/action.rs:440-488 | the loop that fills the output map computes the specified projection, or the first mismatch |
| ActionValues.ValidateShapes | crates/server/src/action.rs:394-503 | every accepted answer is given exactly these values: null stays null, a scalar itself, a list keeps length and order, and an object has one entry per selected key, with what the last field under that key asks for: the type's name, the related value of a declared field, the raw value of an undeclared one, null where there is none |
| ActionCorrect.ValidateExact | crates/server/src/action.rs:394-488 | a webhook value is accepted if and only if it conforms to the type on the selected declared fields |
| ActionCorrect.ResultOnlySelected | crates/server/src/action.rs:440-488 | at every depth the result has only keys that are selected aliases, with what their declarations allow |
| ActionCorrect.AliasAnswered | crates/server/src/action.rs:440-488 | every selected alias is answered, by the last selection that uses it |
| DepthGuard.QueryTooDeep | crates/server/src/gql.rs:15-35 | one saturating scan rejects a query if and only if some substring opens over 100 more brackets than it closes |
| DepthGuard.SuffixStep | crates/server/src/gql.rs:21-33 | the running counter is the largest net depth over all suffixes of the scanned prefix |

## Left out

- Postgres itself, pools, catalog queries, HTTP handlers, `main.rs`, `migrate.rs`: I/O; the database is an abstract value.
- Insert constraints are an arbitrary predicate on the tables asked after every stored row; end-of-statement constraints inside one batch (self-referencing foreign keys) are not told apart.
- Transaction.EveryStepPermitted: a statement changes only its own table, which assumes no cascading foreign keys and no triggers.
- PredicateCorrect.CompareCorrect: the jsonb key-list operators `?|` and `?&` and the three-argument ST_DWithin have no constructor.
- SelectCorrect.SelectCorrect: DISTINCT ON is not modelled; connections are compiled and proved on their own (ConnectionCorrect.ConnectionIsCorrect), not as fields of a row.
- SelectCorrect.RowCorrect: relay global ids and nested connections are not fields of the modelled row.
- SelectCorrect.OperationCorrect: connection roots are not roots of the modelled operation.
- Generator.Ctx.SelectExpr: emits no DISTINCT ON clause.
- Generator.Ctx.Operation: compiles no connection roots.
- RenderedMeaning.RenderedConditionMeaning: GeoJSON literals, which go through a PostGIS function, are not printed.
- RenderedMeaning.RenderedConjunctMeaning: the same.
- RenderedMeaning.BoolWritable: the same.
- PlannerLoops.ParseBoolExp: computed fields, key-list and PostGIS operators are not parsed.
- SelectPlanLoops.WalkTableSelection: relay ids, nested connections, remote and computed fields are not planned; selections are taken as flattened.
- SelectPlanLoops.PlanSelect: arguments are taken as matched by name; `distinct_on` is not modelled.
- RoleView.RowsSeen: `distinct_on` is absent.
- Relay.ReplyIsSlice: one-column keys without an explicit `order_by`; `build_connection` is modelled on values because only its predicate list grows in place; `node(id:)` is not modelled.
- MutationPlan.PlanUpdate: takes the resolved permission (Roles.ResolveRolePerm); the response selection is the walk of SelectPlanLoops.WalkTableSelection.
- MutationPlan.PlanDelete: the same.
- MutationGenerator.CompileMutation: ON CONFLICT (apart from alias capture), with the filter of its DO UPDATE, and function mutations are not compiled; they need Postgres' conflict arbitration and the side effects of SQL functions.
- WebSocketSafety.RunSafe: aborting a task takes effect at once.
- Connection statements have a language of their own around a `Sql.Select`; the necessity of fresh aliases (AliasCapture.OlderIsExact) is not restated for them.
- RenderedText.PrintedConditionMeaning: GeoJSON literals as above; whole statements are not printed, only conditions and the call of OrderText.CallReadsBack; unquoted names are ASCII.
- HiddenReads.ComparisonPrivateExact: the exact condition is for a column of the selected table and for filters of the role that do not read it; for the rest the condition of CellViews.WantedAlike is sufficient.
- AnswerOrder.AnswerInOrder: values that the database orders as equal without being equal (numeric 1.0 and 1.00) are not told apart from others; the value order is taken as total.
- Loader.Resolver.LoadTracked: YAML parsing is not modelled, a file either exists as a parsed document or cannot be read; trimming knows ASCII spaces only.
- PresetsCorrect.HiddenArgumentsServed: needs distinct argument names per field, as valid SDL has; how a schema value is written as query value or JSON is arbitrary.
- PresetValues.InjectedArguments: the same.
- Remote joins, webhook calls, relationships of action output objects, JWT verification, `v1.rs`, introspection, naming and metadata types: network, cryptography, or only easy members.
- Error messages and paths: errors are small datatypes.
