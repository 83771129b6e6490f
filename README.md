# bunutils, modelled in Dafny

bunutils is a small Go helper layer over the `bun` query builder. This project models
its four core pieces and proves what they promise:

- **Selectors** (`selectors.go`, module `Selectors` in `selectors.dfy`). A selector
  is a function from a query builder to a query builder. `Apply`, `ApplyIf`, `OrGroup`,
  `AndGroup` and `Or` combine selectors. The elementary factories (`WhereEqual`,
  `WhereIn`, `WhereContains`, …, `WhereDistinctOn`, the four JSONB factories) each make
  one builder call. `jsonbPathExpression` and `escapeJsonPathSegment` build the JSONB
  path strings.
  - Selectors are a datatype with a `Nil` case. `Run` interprets a selector over an
    abstract builder, and `Added` says independently what each selector adds.
  - `RunApply` is the loop of `Apply`'s closure.
  - `JsonbPathExpression` is the loop of `jsonbPathExpression`, proved against the
    function `JsonbPath`.
- **The filter descriptor** (`where.go`, module `Filter` in `where.dfy`). `Where` is a
  record of filter, projection, pagination and sort settings.
  - `(*Where).Where` fills blank column-name fields in place, then appends its WHERE
    conditions in a fixed order. `(*Where).Select` appends projection, pagination and
    ordering.
  - The descriptor is both a class `Filter.Where`, whose fields the methods update, and
    a value `Filter.Descriptor`, the copy `UseWhere` captures.
- **The ambient transaction** (`tx.go`, module `Transactions` in `tx.dfy`). A context
  carries an optional transaction handle.
  - `InTx` runs a unit of work in the context's transaction (a nested frame), or in a
    transaction of its own that it begins and then commits or rolls back exactly once
    (the root frame).
  - `InTx` is a method over a `DB` object that logs begins, commits, rollbacks and units
    entered. It is proved against the specification function `InTxSpec`.
- **The querier** (`querier.go`, module `Querying` in `querier.dfy`). Four statement
  factories build on the context's transaction when there is one, and on the stored
  database otherwise.

The builder itself (`bun.SelectQuery`) is kept abstract, in module `Builder`
(`builder.dfy`). A query is two append-only logs, both in call order: the WHERE
conditions (a template with its arguments, or a group with the separator that links it to the conditions before it), and every other
builder call (distinct-on, order, columns, limit, offset, soft-delete visibility). No
SQL is rendered. Each fixed condition template is a named constant whose `Text()` is the
exact template string bunutils passes.

Two behaviours of the code are easy to misread, and the model follows the code in both:

- The text operator `->>` goes to the segment at the **last index** of the path, not to
  the last non-empty segment. So a path whose last segment is empty gets no `->>` at all
  (`Selectors.TextSelectsLastIndex`). The doc comment at selectors.go:75 speaks of "the final
  key"; for the paths in the tests the two readings agree.
- `(*Where).Where` fills in the column-name fields, but every condition it emits names
  the `Default*Col` constants. The fields it just filled are never read, so custom
  column names have no effect (`Filter.ColumnFieldsIgnored`).

## Model

| member | source | states |
|---|---|---|
| Builder.Query.Where | where.go:66 | a builder `Where` call appends exactly one condition and leaves the other calls alone |
| Builder.Query.With | where.go:83-85 | any other builder call appends exactly one modifier and no condition |
| Selectors.Apply | selectors.go:24-33 | the `Apply` selector is non-nil and, on any query, appends what its selectors add, in argument order |
| Selectors.ApplyIf | selectors.go:15-20 | the result is nil exactly when the condition is false; when it is true it appends what its selectors add, in argument order |
| Selectors.OrGroup | selectors.go:36-42 | on any query, appends one group prefixed by " OR " holding the conditions the selectors add; their other calls land on the query itself |
| Selectors.AndGroup | selectors.go:45-51 | on any query, appends one group prefixed by " AND " holding the conditions the selectors add; their other calls land on the query itself |
| Selectors.GroupRuns | selectors.go:36-51 | a group selector with any separator runs its selectors on an empty WHERE list and appends what they add as one group |
| Selectors.Or | selectors.go:54-58 | on any query, appends one AND group holding one OR group per selector, in order, plus the selectors' other calls |
| Selectors.UseWhere | selectors.go:61-65 | on any query, appends the descriptor's conditions and then its visibility call |
| Selectors.RunAppendsAdded | selectors.go:24-51 | running any non-nil selector appends exactly what the independent definition `Added` says it adds, whatever the query already holds |
| Selectors.RunAllAppendsAdded | selectors.go:25-32 | running a list of selectors appends what they add, in order, nil ones contributing nothing |
| Selectors.AddedAllConcat | selectors.go:26-30 | what a concatenation of selector lists adds is what the first list adds followed by what the second adds |
| Selectors.RunApply | selectors.go:25-32 | the loop of `Apply` runs every non-nil selector once, in argument order, and skips nil ones |
| Selectors.ApplyInOrder | selectors.go:24-33 | applying `a + b` is applying `a` and then `b`; `Apply` of one non-nil selector is that selector, of a nil selector or of none is the identity |
| Selectors.ApplyOfNilsIsIdentity | selectors.go:26-29 | `Apply` of any number of nil selectors leaves the query unchanged |
| Selectors.AllNilAddsNothing | selectors.go:27 | a list of nil selectors adds nothing |
| Selectors.ApplyIfBehaviour | selectors.go:15-20 | `ApplyIf(false, …)` is the nil selector; `ApplyIf(true, s…)` is non-nil and runs exactly as `Apply(s…)` |
| Selectors.GroupAppendsOneGroup | selectors.go:36-51 | `OrGroup` and `AndGroup` append exactly one group, prefixed by " OR " or " AND ", holding the conditions `Apply` of the same selectors adds to an empty query; the other calls land on the query itself |
| Selectors.OrGroups | selectors.go:55-57 | the mapping inside `Or` keeps length and order and wraps the i-th selector, alone, in an OR group |
| Selectors.OrAdds | selectors.go:54-58 | the OR groups of `Or` together add one OR group per selector, in order, and the selectors' other calls |
| Selectors.OrShape | selectors.go:54-58 | `Or(s1..sn)` appends one AND group holding n OR groups, the i-th holding only what si adds |
| Selectors.RunUseWhere | selectors.go:61-65 | the `UseWhere` selector works on a copy: it appends the descriptor's conditions and visibility call and leaves the caller's descriptor unchanged |
| Selectors.WhereJsonbEqual | selectors.go:68-72 | appends one condition with the fixed JSONB field template, binding column, field and value, and makes no other call |
| Selectors.WhereJsonbPathEqual | selectors.go:76-80 | appends one condition whose template is the text-extracting path expression followed by " = ?", binding column and value |
| Selectors.WhereJsonbObjectsArrayKeyValueEqual | selectors.go:84-91 | appends one condition with the fixed array-containment template, binding column, key, field and value |
| Selectors.WhereJsonbPathObjectsArrayKeyValueEqual | selectors.go:95-102 | appends one condition whose template is the non-text path expression followed by the containment test, binding column, field and value |
| Selectors.WhereEqual | selectors.go:123-127 | appends one `=` condition on the column with the value, and makes no other call |
| Selectors.WhereNull | selectors.go:129-133 | appends one `is null` condition on the column |
| Selectors.WhereNotNull | selectors.go:135-139 | appends one `is not null` condition on the column |
| Selectors.WhereDistinctOn | selectors.go:141-145 | adds no condition, then distinct-on the column, then the order expression "col, id" |
| Selectors.WhereNotEqual | selectors.go:147-151 | appends one `!=` condition on the column with the value |
| Selectors.WhereIn | selectors.go:153-157 | appends one `IN` condition on the column with the value list |
| Selectors.WhereNotIn | selectors.go:159-165 | appends one `NOT IN` condition on the column with the value list |
| Selectors.WhereContains | selectors.go:167-171 | appends one ILIKE condition whose pattern is the substring between two `%` |
| Selectors.WhereBegins | selectors.go:173-177 | appends one ILIKE condition whose pattern is the substring followed by `%` |
| Selectors.WhereEnds | selectors.go:179-183 | appends one ILIKE condition whose pattern is `%` followed by the substring |
| Selectors.WhereBefore | selectors.go:185-189 | appends one inclusive `<=` condition on the column with the time |
| Selectors.WhereAfter | selectors.go:191-195 | appends one inclusive `>=` condition on the column with the time |
| Selectors.Escape | selectors.go:119-121 | the escaped segment is longer than the original by exactly its number of quotes |
| Selectors.EscapeRoundTrip | selectors.go:119-121 | escaping loses nothing: undoubling the quotes gives back the original segment |
| Selectors.EscapeQuotes | selectors.go:119-121 | quote-free segments are unchanged; the output is longer by the number of quotes and holds twice as many quotes |
| Selectors.EscapeNotIdempotent | selectors.go:119-121 | escaping twice differs from escaping once whenever the segment holds a quote |
| Selectors.EscapeConcat | selectors.go:120 | escaping works character by character: it distributes over concatenation |
| Selectors.QuoteFreeUnchanged | selectors.go:120 | a segment with no quote character is kept exactly |
| Selectors.EscapeExamples | selectors_test.go:410-431 | "user" escapes to itself and "user's" to "user''s" |
| Selectors.EscapeTwoQuotesExample | selectors_test.go:426-430 | "it's user's" escapes to "it''s user''s" |
| Selectors.JsonbPath | selectors.go:104-117 | every path expression starts with the root "?TableAlias.?" |
| Selectors.JsonbPathExpression | selectors.go:104-117 | the loop that accumulates the expression computes `JsonbPath`: the root, then one step per non-empty segment in path order |
| Selectors.PrefixGrows | selectors.go:106-114 | one more segment extends the expression by its formatted, escaped step, or by nothing when the segment is empty |
| Selectors.PiecesIgnoreTextBeforeLast | selectors.go:110-113 | before the last index the text flag changes no operator |
| Selectors.PiecesExtend | selectors.go:106-115 | without text extraction, later segments do not change the steps of earlier ones |
| Selectors.AppendSegment | selectors.go:106-115 | without text extraction, appending a segment appends " -> 'seg'" with the segment escaped, or nothing for an empty segment |
| Selectors.TextSelectsLastIndex | selectors.go:110-113 | with text extraction a non-empty last segment gets "->>" and all earlier ones "->"; an empty last segment leaves no "->>" at all |
| Selectors.AllEmptyPathIsRoot | selectors.go:105-109 | an empty or all-empty path yields just the root "?TableAlias.?" |
| Selectors.PiecesOfShapes | selectors.go:106-115 | the steps of one-, two- and three-segment paths, with an empty middle segment skipped |
| Selectors.RenderShapes | selectors.go:114 | the text of one, two and three steps |
| Selectors.JsonbPathExamples | selectors_test.go:367-397 | the four test paths give exactly the expected strings |
| Selectors.SingleKeyPathInlinesKey | selectors.go:84-102 | for a one-key path the path variant of array containment is the column, `-> 'key'` with the key escaped, then the containment test |
| Filter.Where.constructor | where.go:17-48 | a descriptor object holds exactly the given field values |
| Filter.Where.FillDefaults | where.go:55-63 | blank column-name fields get their defaults in place; everything else is unchanged |
| Filter.ApplyWhere | where.go:50-103 | a nil descriptor returns the query unchanged; otherwise the descriptor is defaulted in place and the query is the input followed by every condition and the visibility call, in the fixed order |
| Filter.AppendIdConds | where.go:65-73 | id equality, inclusion and exclusion conditions, each only when its field is set, on the default id column |
| Filter.AppendFlagConds | where.go:75-80 | one `flags & f = f` per required flag, then one `flags & f = 0` per excluded flag, in list order |
| Filter.AppendTimeConds | where.go:88-100 | inclusive created and updated bounds (`>=` after, `<=` before), each only when set, on the default columns |
| Filter.HasFlagConds | where.go:75-77 | one required-flag condition per list entry, the i-th for the i-th flag |
| Filter.HasNotFlagConds | where.go:78-80 | one excluded-flag condition per list entry, the i-th for the i-th flag |
| Filter.ApplySelect | where.go:105-133 | a nil descriptor returns the query unchanged; otherwise the WHERE list is untouched, the descriptor is not modified, and projection, pagination and ordering calls are appended |
| Filter.DefaultsFillOnlyBlankColumns | where.go:55-63 | blank column-name fields get "flags", "created_at", "updated_at", non-blank ones and every other field are kept, and a second pass changes nothing |
| Filter.ColumnFieldsIgnored | where.go:66-99 | the conditions never read the column-name fields: descriptors differing only there give the same query, and a second `Where` call gives what the first gave |
| Filter.ConditionsRanked | where.go:65-100 | the conditions appear in non-decreasing rank, and every one names its default column |
| Filter.ConditionsCountRank | where.go:65-100 | how many conditions of each rank appear: one per set single field, one per flag-list entry |
| Filter.ConditionsInFixedOrder | where.go:65-100 | conditions come in the order id, ids, not-in-ids, required flags, excluded flags, created-after, created-before, updated-after, updated-before, each present exactly when its field is set |
| Filter.ConditionCount | where.go:65-100 | the number of conditions appended is the number of flag entries plus the number of set single fields |
| Filter.IdConditionsLength | where.go:65-73 | the id conditions number one per set id field |
| Filter.TimeConditionsLength | where.go:88-100 | the time conditions number one per set bound |
| Filter.OnlyDeletedWins | where.go:82-86 | "only deleted" wins whatever "with deleted" says; "with deleted" alone selects all rows; neither adds no call; at most one visibility call |
| Filter.IdsExample | where_test.go:42-51 | `IDs: ["1","2","3"]` becomes one `IN` condition on the id column, and nothing else |
| Filter.OrderAsc | where.go:137-139 | the column, followed by " asc" |
| Filter.OrderDesc | where.go:141-143 | the column, followed by " desc" |
| Filter.OrderDirectionRecoverable | where.go:137-143 | the ordering expressions are injective in the column and never confuse ascending with descending |
| Filter.SelectOrdering | where.go:124-130 | an ordering call is made exactly when the sort key is in the map, and every ordering call names that key's column, descending exactly when asked |
| Filter.SelectProjection | where.go:110-115 | a column call is made exactly for a non-empty column list and an exclusion call exactly for a non-empty exclusion list, and every such call names its whole list |
| Filter.SelectPagination | where.go:117-122 | a limit call is made exactly when the limit is set and an offset call exactly when the offset is set, and every such call carries the set value |
| Transactions.TxFromContext | tx.go:14-20 | a handle stored under the transaction key is returned as stored; an unset slot or a value of another type gives nil |
| Transactions.TxToContext | tx.go:22-27 | the derived context carries the given handle, and every other key reads as in the parent, or in the background context when the parent is nil |
| Transactions.TxContextRoundTrip | tx_test.go:9-67 | storing then reading the handle gives it back; nil and background parents agree; the background context and a wrongly typed slot carry no handle; other keys do not disturb the slot |
| Transactions.Unwrap | tx.go:68-72 | only the rollback-failure error wraps something, and what it wraps is exactly its cause, a strictly smaller error |
| Transactions.Is | tx.go:68-72 | a plain error matches only itself; a rollback failure matches itself and exactly what its wrapped cause matches; the rollback error, only formatted, plays no part |
| Transactions.WrappedErrorKeepsCause | tx.go:68-72 | the wrapped rollback failure still matches its original error, and matches exactly what that error matches plus itself |
| Transactions.InTxSpec | tx.go:29-73 | one `InTx` call never moves the fresh-handle counter back |
| Transactions.InTxSpecStarts | tx.go:29-48 | without a handle in the context nothing is logged exactly when begin fails, and otherwise the log starts with the begin of the fresh handle and the counter advances; with a handle the log starts with `fn` entered on that handle |
| Transactions.Body | tx.go:44-57 | calling `fn` never moves the fresh-handle counter back |
| Transactions.CallsUpTo | tx.go:44-57 | the nested calls `fn` makes never move the fresh-handle counter back |
| Transactions.Finish | tx.go:57-72 | after success: nil exactly when the commit succeeds, else the commit error; after an error: an error still matching it, that very error when rollback succeeds; after a panic: the same panic |
| Transactions.InTx | tx.go:29-73 | the call's events, outcome and fresh-handle counter are those of `InTxSpec` |
| Transactions.RunFn | tx.go:44-57 | calling `fn` logs its entry, then its nested calls, and ends with its own result when they all succeed or with the first failure, as `Body` says |
| Transactions.RunCalls | tx.go:44-57 | the nested `InTx` calls of `fn` run in order, stopping after the first that does not succeed, with the log, outcome and counter `CallsUpTo` gives |
| Transactions.CallsStuck | tx.go:44-57 | once a nested call fails, no later one is made |
| Transactions.NestedStaysInside | tx.go:44-48 | a nested call is `fn` itself on a context with the same handle: every entry sees that handle and no fresh handle is taken |
| Transactions.NestedFrameIsTransparent | tx.go:33-48 | nested frame: `fn` is entered first, seeing the same handle, its outcome is returned unchanged, nothing is begun, committed or rolled back |
| Transactions.RootBeginFails | tx.go:34-40 | root frame, begin fails: that error, `fn` never called, nothing logged |
| Transactions.RootBrackets | tx.go:33-72 | root frame: the log is the begin of the fresh handle, then `fn` entered on that handle and the entries of the call tree, all inside that handle, then one settle with the outcome of `fn`; the only control steps are one begin then one commit after success or one rollback after an error or a panic |
| Transactions.RootOutcome | tx.go:50-72 | root frame: after success the commit error as-is or nil; after an error that error, or a wrapped one still matching it when rollback fails; after a panic the same panic |
| Transactions.NestedRunsPreorder | tx.go:44-48 | inside a transaction the units entered are a prefix of the call tree's pre-order, all of it on success |
| Transactions.RootRunsEachUnitOnce | tx.go:29-73 | root frame with any nesting: every unit is entered at most once, in pre-order; all of them on success; none when begin fails |
| Transactions.NestedTestExample | tx_test.go:110-138 | the nested test: begin, both units seeing the one handle, one commit, no error |
| Querying.SourceFor | querier.go:27-31 | a statement is built on the context's transaction exactly when the context carries one, else on the stored database |
| Querying.Querier.NewSelectQuery | querier.go:26-32 | a select statement on the context's transaction, else on the database |
| Querying.Querier.NewInsertQuery | querier.go:34-40 | an insert statement on the context's transaction, else on the database |
| Querying.Querier.NewUpdateQuery | querier.go:42-48 | an update statement on the context's transaction, else on the database |
| Querying.Querier.NewDeleteQuery | querier.go:50-56 | a delete statement on the context's transaction, else on the database |
| Querying.NewQuerier | querier.go:20-24 | the querier stores the given database |
| Querying.BuildersChooseTxElseDB | querier.go:26-56 | all four factories make the same tx-else-database choice; a context carrying a handle uses it, the background context, a nil handle or a wrongly typed slot use the database |
| Querying.StatementsInsideInTxUseItsTransaction | querier.go:26-32 | every statement built from the context `fn` receives inside `InTx`, root or nested, uses the call's one transaction |

Helper lemmas, with no row of their own: `Builder.AppendAssociative` and
`Builder.AppendEmpty` (recorded calls form a monoid under appending),
`Selectors.QuotesConcat` (quote counts add up over concatenation),
`Selectors.FactoryTemplates` (the fixed templates spelled out as strings),
`Selectors.RenderSnoc` (one more step appends its text), `Transactions.ControlsConcat`
(the control steps of a concatenated log are those of its parts) and
`Transactions.InsideTxHasNoControls` (a log of entries only has no control step),
`Transactions.CallsUpToNext` (one more successful nested call extends the log) and
`Transactions.BracketRanIds` (the begin and the settling step enter no unit).

## Left out

- SQL rendering stays inside `bun`, and the model keeps the builder abstract. Left out
  are placeholder expansion (`?TableAlias`, `?`), identifier quoting, `bun.In`
  expansion, how `WhereGroup` chooses the AND/OR prefix, and how it drops an empty
  group. A group always records one entry.
- Selectors.WhereNotIn: the bare `q.Table()` call at selectors.go:161 adds nothing to
  the query and is not modelled.
- Selectors.Or: the `Map` helper is not part of this model. It is taken to keep
  order and length.
- The fixed JSONB array-containment template and the
  path-expression templates are related by their structure (`SingleKeyPathInlinesKey`),
  not by comparing the full literal template strings.
- Selectors.Run: calling a nil `Selector` panics in Go. `Run` requires a non-nil
  selector, and every combinator that runs selectors (`Apply`, the groups, `Or`) skips
  nil ones, as the Go code does.
- Values of Go type `any` become the `Arg` datatype (identifier, string, integer,
  timestamp, list).
- `time.Time` and `time.UnixMilli` become integer milliseconds.
- Go integers are unbounded here; no `int`/`int64` overflow occurs on any modelled path.
- `errors.go` and `testing.go` are not part of this model. The message text built by
  `fmt.Errorf` is left out; only its wrapping, as seen by `errors.Is`/`errors.Unwrap`,
  is kept.
- Context internals, deadlines, cancellation and concurrency are left out. A context is
  an immutable chain of key/value bindings.
- `TxFromContext` on a nil context panics in Go. It is modelled only on non-nil contexts.
- The database client's `BeginTx`, `Commit` and `Rollback` are inputs (`Collaborator`):
  each either succeeds or fails with a given error.
- Go's `panic`/`recover` is an outcome value `Panic(v)` that propagates through frames.
- Transactions.Fn: a unit of work is modelled as a tree. It calls `InTx` with the
  context it received, for each child in order, stops at the first child that does not
  succeed, and passes that failure on; otherwise it ends with its own result. Units that
  call `InTx` with some other context, ignore a child's error, or do other work between
  calls are not modelled.
- Querying.Querier: the statements are records of kind and source. The statement
  builders' own behaviour belongs to `bun` and is not modelled.
