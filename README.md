# Elasticsearch query compiler: a Dafny model

This project models the query compiler of the laravel-elasticsearch package and the
query-builder state the compiler reads. The compiler is `Elasticsearch/Query/Grammar/Grammar.php`
and the builder is `Elasticsearch/Query/Builder.php`. The builder collects `where` records, a
table, a key name, columns, an aggregate, orders, a limit and an offset. The grammar turns that
state into the body of an Elasticsearch search request, or an insert into an index request.

Modules, in dependency order:

- `Wrappers`: `Option` (PHP `null`, or the `false` the compiler uses for "omit"), the `Error` of
  the `notSupport` helpers, and a `Result` that supports `:-`.
- `Wire`: the request tree. PHP arrays become `Json` objects (string-keyed maps) and lists.
- `Strings`: `strtolower`, `explode` on the first separator, `strpos`, `implode`.
- `Builder`: the `Where` records, the `Query` snapshot of everything the grammar reads, and
  the class `QueryBuilder`. Its methods update the builder's fields in place.
- `Clauses`: the pure per-clause compilers `whereBasic`, `whereIn`, `whereNotIn`, `whereNull`,
  `whereNotNull` and `whereMultiMatch`, plus `removeTableFromColumn`.
- `Wheres`: `compileWheres`. It has two parts.
  - A specification: `Route` gives where one clause lands, `Routes` does this for a list, and
    `Groups` and `Assemble` build the result. `AssembleAsWritten` is the return step with the
    guard of line 192 exactly as written, and `WheresSpecAsWritten` the whole compile under that
    guard, nested compiles included (see "## Findings").
  - The imperative loop, `CompileWheres`. It keeps the `must`/`should` lists, the filter groups
    and the `$orIndex` cursor, mutually recursive through nested groups. It is proved equal to
    the specification.
- `WheresFacts`: what the specification guarantees.
  - The routing table, clause by clause.
  - A failed list fails with its first failing clause.
  - Every clause lands in exactly one place.
  - The shape of the filter groups and when a group opens; in order, the groups hold the
    filter clauses in their original order.
  - A worked example.
- `Grammar`: the steps that assemble a search or insert request.
  - `compileComponents` is a loop, proved equal to a fold over the components (`SelectBody`)
    and to a straight-line reference (`BodyOf`).
  - `compileSelect` is a method on the builder and restores its columns.
  - Also modelled: `compileAggregate`, `compileColumns`, `compileFrom`, `compileOrders` (a
    loop), `compileInsert` and `processKeyValue`.

The code behaves as follows, and the model follows it:

- Range operators and `like` compile as scoring (`must`/`should`), not as filters. `!=` and `<>`
  compile as filters.
- A nested group is compiled only for its failures. Its result is discarded and the clause
  contributes nothing. It is not spliced into the parent.
- An empty `NotIn` is not dropped. It becomes `{not: false}` in the current filter group.
- The filter tree is sent whenever the query is, and never without it. It keeps its initial
  empty group.
- An `or` multi-match is not routed to `must`. It fails in the switch's default case.
- An aggregate function outside the table is not a reported error. The code reads an undefined
  index, so the model makes it a precondition (`AggregateKnown`).

## Model

| member | source | states |
|---|---|---|
| `Builder.MatchKey` | Elasticsearch/Query/Builder.php:111-116 | the record's operator field is `minimum_should_match` exactly when the first `%` of the operator string stands after position 0, and `operator` otherwise |
| `Builder.MatchKeyExamples` | Elasticsearch/Query/Builder.php:111-116 | `80%` selects `minimum_should_match`; `and` and `%80` select `operator` |
| `Builder.StatsColumns` | Elasticsearch/Query/Builder.php:91-93 | a scalar column becomes a one-element list; a list is kept |
| `Builder.QueryBuilder.constructor` | Elasticsearch/Query/Builder.php:21-23 | a fresh builder has no table, no key name, no where records, and null columns, aggregate, orders, limit and offset |
| `Builder.QueryBuilder.From` | Elasticsearch/Query/Builder.php:31-37 | sets the table and the key name (default `_id`); nothing else changes |
| `Builder.QueryBuilder.Join` | Elasticsearch/Query/Builder.php:43-46 | always fails with `join` and changes no state |
| `Builder.QueryBuilder.JoinWhere` | Elasticsearch/Query/Builder.php:48-51 | always fails with `joinWhere` and changes no state |
| `Builder.QueryBuilder.LeftJoin` | Elasticsearch/Query/Builder.php:53-56 | always fails with `leftJoin` and changes no state |
| `Builder.QueryBuilder.LeftJoinWhere` | Elasticsearch/Query/Builder.php:58-61 | always fails with `leftJoinWhere` and changes no state |
| `Builder.QueryBuilder.RightJoin` | Elasticsearch/Query/Builder.php:63-66 | always fails with `rightJoin` and changes no state |
| `Builder.QueryBuilder.CrossJoin` | Elasticsearch/Query/Builder.php:77-80 | always fails with `crossJoin` and changes no state |
| `Builder.QueryBuilder.WhereMultiMatch` | Elasticsearch/Query/Builder.php:108-120 | appends exactly one `MultiMatch` record. Its operator field is chosen by `MatchKey` and `op_param` keeps the caller's string. Nothing else changes |
| `Builder.QueryBuilder.WhereNull` | Elasticsearch/Query/Builder.php:209-216 | appends exactly one `Null` record, or one `NotNull` record when negated; nothing else changes |
| `Builder.QueryBuilder.Offset` | Elasticsearch/Query/Builder.php:194-198 | stores `max(0, value)`, so the offset is never negative; nothing else changes |
| `Builder.QueryBuilder.GetAggregate` | Elasticsearch/Query/Builder.php:164-176 | the run sees the given columns (`['*']` by default) only if the builder had none. The result is the run's result. After a run that returns, the builder is as before; after a run that throws, the substitution stays |
| `Builder.QueryBuilder.Aggregate` | Elasticsearch/Query/Builder.php:129-155 | the run sees the aggregate (columns `['*']` by default), empty select bindings and limit 1. Afterwards the aggregate is null, columns and bindings are restored, and limit stays 1. A `stats` call returns the whole `aggregate` entry, any other function its `value`. A throwing run restores nothing |
| `Builder.QueryBuilder.Stats` | Elasticsearch/Query/Builder.php:89-96 | `aggregate('stats', …)` on the wrapped columns, `'*'` by default; returns the whole `aggregate` entry |
| `Clauses.RemoveTableFromColumn` | Elasticsearch/Query/Grammar/Grammar.php:211-222 | an unqualified column is kept. A qualified one succeeds exactly when its first segment is the query's table, and then yields the second segment. Any other table fails with `Join table search` |
| `Clauses.QualifiedColumn` | Elasticsearch/Query/Grammar/Grammar.php:211-222 | `table.col` resolves to `col` exactly when `table` is the query's table |
| `Clauses.WhereBasic` | Elasticsearch/Query/Grammar/Grammar.php:288-337 | the column is resolved first. `=` gives a term and `!=`/`<>` a negated term, both filter-class. `>`, `>=`, `<`, `<=` give a range with `gt`/`gte`/`lt`/`lte`, and `like` a fuzzy match, both scoring. Any other operator fails with `where operator <op>` |
| `Clauses.WhereIn` | Elasticsearch/Query/Grammar/Grammar.php:346-357 | no values gives `false` before the column is looked at; otherwise a `terms` fragment on the resolved column, failing exactly when the column is refused |
| `Clauses.WhereNotIn` | Elasticsearch/Query/Grammar/Grammar.php:366-369 | wraps `whereIn` in `not`: no values gives `{not: false}`; it fails exactly when `whereIn` does |
| `Clauses.WhereNull` | Elasticsearch/Query/Grammar/Grammar.php:256-263 | an `exists` test whose field is the column as given, with no table stripping |
| `Clauses.WhereNotNull` | Elasticsearch/Query/Grammar/Grammar.php:272-279 | a `missing` test whose field is the column as given |
| `Clauses.WhereMultiMatch` | Elasticsearch/Query/Grammar/Grammar.php:239-247 | a `multi_match` with the value as query, the record's operator key set to `op_param`, and the columns as fields |
| `Wheres.ClauseExpr` | Elasticsearch/Query/Grammar/Grammar.php:130-136 | the value and filter flag of the record's `where*` method. Every type but `Basic` is flagged filter-class. Only an empty in list and a nested group return no array. An unknown type fails with `where<type>` |
| `Wheres.Switch` | Elasticsearch/Query/Grammar/Grammar.php:138-188 | a non-array is skipped. An accepted array is never dropped. A group opens only for a filter-class clause with the exact boolean `or`. Only a scoring fragment reaches `should`. The default fails with `where<type>` |
| `Wheres.Route` | Elasticsearch/Query/Grammar/Grammar.php:130-188 | only an empty in list and a nested group are skipped, only a basic clause reaches `should`, an opening clause has boolean `or`, and an unknown type fails |
| `Wheres.Routes` | Elasticsearch/Query/Grammar/Grammar.php:129-190 | a compiled list has exactly one placement per clause |
| `Wheres.Groups` | Elasticsearch/Query/Grammar/Grammar.php:114-127 | the filter groups always form a non-empty list, starting from one empty group |
| `Wheres.AddToGroups` | Elasticsearch/Query/Grammar/Grammar.php:139-149 | adding a placement keeps the list of groups non-empty |
| `Wheres.WhereBody` | Elasticsearch/Query/Grammar/Grammar.php:193-200 | exactly the keys `query` and `filter`. The filter is the OR-of-AND tree of the groups. The bool query has `must`, `must_not` and `should`: a one-clause `must` is that clause, otherwise the list. `must_not` is the empty list and `should` the list |
| `Wheres.Assemble` | Elasticsearch/Query/Grammar/Grammar.php:192-201 | with the intended guard: `false` exactly when `must` and `should` are both empty, otherwise `WhereBody` |
| `Wheres.AssembleAsWritten` | Elasticsearch/Query/Grammar/Grammar.php:192-201 | with the guard as written: when `count` of a boolean is 1, always `WhereBody`; when it throws, it fails with `NotCountable` exactly when `must` is empty |
| `Wheres.RoutesExtendErr` | Elasticsearch/Query/Grammar/Grammar.php:129-190 | once a prefix of the where list fails, the whole list fails with the same error |
| `Wheres.RoutesSnoc` | Elasticsearch/Query/Grammar/Grammar.php:129-190 | one more clause either fails the list or appends its placement |
| `Wheres.FragsSnoc` | Elasticsearch/Query/Grammar/Grammar.php:139-188 | appending a placement appends to `must` or `should` or to the groups, and nothing else |
| `Wheres.CallWhereMethod` | Elasticsearch/Query/Grammar/Grammar.php:130-136 | the `where*` call returns what `ClauseExpr` specifies; a nested group recurses into `CompileWheres` |
| `Wheres.Place` | Elasticsearch/Query/Grammar/Grammar.php:138-188 | an array fragment opens a group as on line 139 and is routed by the switch. The new accumulators are the old ones plus that placement, with the cursor on the last group. The default case reports failure |
| `Wheres.CompileClause` | Elasticsearch/Query/Grammar/Grammar.php:130-188 | fails exactly when the clause's route fails, with its error; otherwise extends the accumulators by the clause's placement |
| `Wheres.CompileWheres` | Elasticsearch/Query/Grammar/Grammar.php:104-202 | the loop computes `CompiledWheres`: `false` for a null list, the first clause's failure, or the query that `Assemble` returns |
| `WheresFacts.LowerType` | Elasticsearch/Query/Grammar/Grammar.php:151 | the lower-cased record type; it has no underscore for the known types |
| `WheresFacts.SwitchKeyParts` | Elasticsearch/Query/Grammar/Grammar.php:151 | the switch key is the lower-cased boolean, `_` and the lower-cased type |
| `WheresFacts.KeyFacts` | Elasticsearch/Query/Grammar/Grammar.php:151-187 | for a type without underscore, each switch case is hit by exactly one boolean–type pair, and the group cases by `and`/`or` with `in`, `null`, `notin`, `notnull`, `raw` |
| `WheresFacts.SwitchBasic` | Elasticsearch/Query/Grammar/Grammar.php:139-162 | a filter-class basic fragment joins the current group and opens a new one only for the exact boolean `or`. A scoring one goes to `must` for `and` and to `should` for `or`, compared lower-cased. Any other boolean fails |
| `WheresFacts.SwitchMultiMatch` | Elasticsearch/Query/Grammar/Grammar.php:164-187 | a multi-match fragment goes to `must` for `and` and fails for any other boolean, `or` included |
| `WheresFacts.SwitchGroup` | Elasticsearch/Query/Grammar/Grammar.php:172-187 | in, not-in, null and not-null fragments join the current group for `and`/`or` and fail otherwise |
| `WheresFacts.BasicRoute` | Elasticsearch/Query/Grammar/Grammar.php:131-162 | a basic clause's placement in terms of the operator's fragment and flag, or the column or operator failure |
| `WheresFacts.MultiMatchRoute` | Elasticsearch/Query/Grammar/Grammar.php:133-170 | a multi-match's flag is true, because `MultiMatch` never equals `multimatch`. An `and` one still goes to `must`; any other boolean fails |
| `WheresFacts.InRoute` | Elasticsearch/Query/Grammar/Grammar.php:138-187 | an in clause without values is dropped whatever its boolean or column; otherwise its terms fragment joins the current group |
| `WheresFacts.NotInRoute` | Elasticsearch/Query/Grammar/Grammar.php:138-187 | a not-in clause always yields a fragment that joins the current group, `{not: false}` when it has no values |
| `WheresFacts.NullRoute` | Elasticsearch/Query/Grammar/Grammar.php:172-187 | null and not-null clauses join the current group with `exists`/`missing` on the column as given |
| `WheresFacts.NestedAndOtherRoute` | Elasticsearch/Query/Grammar/Grammar.php:224-229 | a nested group contributes nothing but propagates its own failure; an unknown type fails with `where<type>` |
| `WheresFacts.RoutesAllOk` | Elasticsearch/Query/Grammar/Grammar.php:129-190 | a list whose every clause compiles compiles |
| `WheresFacts.RoutesOk` | Elasticsearch/Query/Grammar/Grammar.php:129-190 | the list compiles exactly when every clause does |
| `WheresFacts.RoutesPlaced` | Elasticsearch/Query/Grammar/Grammar.php:129-190 | a compiled list has one placement per clause, in the clauses' order |
| `WheresFacts.RoutesFirstError` | Elasticsearch/Query/Grammar/Grammar.php:129-190 | a failing list fails with the error of its first failing clause |
| `WheresFacts.OnePlaceEach` | Elasticsearch/Query/Grammar/Grammar.php:151-187 | each clause lands in exactly one of `must`, `should`, a filter group or nowhere; `must_not` is never written |
| `WheresFacts.NoMustFrags` | Elasticsearch/Query/Grammar/Grammar.php:151-187 | `must` (or `should`) is empty exactly when no clause is routed there |
| `WheresFacts.FalseWithoutScoring` | Elasticsearch/Query/Grammar/Grammar.php:192-201 | under the intended guard, a list that compiles gives `false` exactly when no clause is scored, so the filters of a filter-only list are lost |
| `WheresFacts.GuardAsWritten` | Elasticsearch/Query/Grammar/Grammar.php:192-201 | under the guard as written, when `count` of a boolean is 1 a compiled list never gives `false`, and it agrees with the intended guard whenever something is scored. When `count` throws, a compiled list without nested groups fails exactly when no clause goes to `must` |
| `WheresFacts.GuardCounterexample` | Elasticsearch/Query/Grammar/Grammar.php:192 | a lone `a = 1` filter, and the empty list, give `false` under the intended guard. Under the guard as written they send `must: []` with the filter tree when `count` is 1, and fail with `NotCountable` when it throws |
| `WheresFacts.NestedCounterexample` | Elasticsearch/Query/Grammar/Grammar.php:192-201 | a nested group holding only `a = 1`, then `c like x`: the intended guard sends the match. Under the guard as written, when `count` throws, the nested compile throws and the whole list fails |
| `WheresFacts.RoutesCountIsOne` | Elasticsearch/Query/Grammar/Grammar.php:129-190 | when `count` of a boolean is 1, every list routes as under the intended guard, nested groups included |
| `WheresFacts.RoutesNoNested` | Elasticsearch/Query/Grammar/Grammar.php:129-190 | a list without nested groups routes the same under either reading |
| `Wheres.ClauseExprAsWritten` | Elasticsearch/Query/Grammar/Grammar.php:224-229 | under the guard as written, a nested group compiles its list through the same guard and fails exactly when that compile fails; every other record is as in `ClauseExpr` |
| `Wheres.RouteAsWritten` | Elasticsearch/Query/Grammar/Grammar.php:130-188 | under the guard as written, every record that is not a nested group routes as in `Route` |
| `WheresFacts.GroupsShape` | Elasticsearch/Query/Grammar/Grammar.php:139-149 | every group after the first is non-empty. The current and first groups are empty exactly when no clause was routed to a group, and then that is the only group |
| `WheresFacts.GroupsFlatten` | Elasticsearch/Query/Grammar/Grammar.php:139-187 | the groups concatenated in order are the filter clauses in their original order |
| `WheresFacts.GroupsCount` | Elasticsearch/Query/Grammar/Grammar.php:139-149 | one group, plus one per opening filter clause after the first filter clause |
| `WheresFacts.FilterOpensEmpty` | Elasticsearch/Query/Grammar/Grammar.php:139-187 | the opening flags are empty exactly when no filter clause exists |
| `WheresFacts.ExampleClauses` | Elasticsearch/Query/Grammar/Grammar.php:288-337 | on table `t`: `a = 1` and `b = 2` are filters, the second opening; `c like x` is scored |
| `WheresFacts.ExampleRoutes` | Elasticsearch/Query/Grammar/Grammar.php:129-190 | the three example clauses are placed in order |
| `WheresFacts.ExampleFrags` | Elasticsearch/Query/Grammar/Grammar.php:139-188 | the example's `or` term opens a second group and the match is the single `must` |
| `WheresFacts.OrSplitsGroups` | Elasticsearch/Query/Grammar/Grammar.php:104-202 | the example compiles to one `must` sent as itself, no `should`, and two AND groups |
| `Grammar.KeyValue` | Elasticsearch/Query/Grammar/Grammar.php:19-26 | an id is found exactly when the key name is truthy (not null, `""` or `"0"`) and the values hold a non-null entry under it, and then it is that entry |
| `Grammar.CompileInsert` | Elasticsearch/Query/Grammar/Grammar.php:35-48 | the request has `index` (the database), `type` (the table) and `body` (the values, key field kept), and `id` exactly when `KeyValue` found one, equal to it |
| `Grammar.CompileOrders` | Elasticsearch/Query/Grammar/Grammar.php:516-523 | one `{column: direction}` entry per order, in order |
| `Grammar.CompileAggregate` | Elasticsearch/Query/Grammar/Grammar.php:474-488 | one aggregation keyed by the mapped function name. Its field is the key name exactly when the columns are `['*']`, otherwise the comma-joined columns |
| `Grammar.CompileColumns` | Elasticsearch/Query/Grammar/Grammar.php:83-90 | `false` exactly when an aggregate is set; otherwise the columns, one string each, in order |
| `Grammar.CompileFrom` | Elasticsearch/Query/Grammar/Grammar.php:99-102 | always `false`: the table never enters the body |
| `Grammar.PartialAggregateColumns` | Elasticsearch/Query/Grammar/Grammar.php:435-456 | after the aggregate and columns components the body is already `HeadOf`: `aggs` for an aggregate, `_source` for columns without one |
| `Grammar.PartialHead` | Elasticsearch/Query/Grammar/Grammar.php:435-456 | after the aggregate, columns, from and joins components the body is `HeadOf`: `aggs` for an aggregate, `_source` for columns without one, no table |
| `Grammar.PartialWheres` | Elasticsearch/Query/Grammar/Grammar.php:435-456 | the where component aborts the visit on failure, or is merged into the body at top level |
| `Grammar.PartialOrders` | Elasticsearch/Query/Grammar/Grammar.php:435-456 | groups and havings add nothing; orders become `sort` |
| `Grammar.PartialLimitOffset` | Elasticsearch/Query/Grammar/Grammar.php:435-456 | the limit becomes `size` and the offset `from` |
| `Grammar.PartialLast` | Elasticsearch/Query/Grammar/Grammar.php:435-456 | unions and lock add nothing |
| `Grammar.PartialTail` | Elasticsearch/Query/Grammar/Grammar.php:435-456 | the components after the wheres give `TailOf` |
| `Grammar.PartialExtendErr` | Elasticsearch/Query/Grammar/Grammar.php:435-456 | a failure part-way is the failure of the whole visit |
| `Grammar.SelectBodyIsBodyOf` | Elasticsearch/Query/Grammar/Grammar.php:435-456 | the component fold fails exactly when the where list fails, with its error; otherwise it equals the straight-line reference `BodyOf` |
| `Grammar.CompileComponents` | Elasticsearch/Query/Grammar/Grammar.php:435-456 | the loop computes `SelectBody`: non-null components are compiled, results other than `false` are stored under their mapped key, and the wheres are merged |
| `Grammar.CompileComponent` | Elasticsearch/Query/Grammar/Grammar.php:439-444 | one component's `compile*` result, or `None` for a null property or a `false` result |
| `Grammar.CompileSelect` | Elasticsearch/Query/Grammar/Grammar.php:56-73 | compiles with null columns read as `[]` and returns `{index, type, body}`. On success the builder's columns are restored; when compiling throws, the `[]` stays |
| `Grammar.JoinIsStar` | Elasticsearch/Query/Grammar/Grammar.php:482-483 | the joined columns equal `*` exactly when the columns are `['*']` |
| `Grammar.WheresKeys` | Elasticsearch/Query/Grammar/Grammar.php:196-199 | a compiled where list that is not `false` has exactly the keys `query` and `filter` |
| `Grammar.HeadKeys` | Elasticsearch/Query/Grammar/Grammar.php:83-102 | `aggs` exactly when an aggregate is set; `_source` exactly when columns are set and no aggregate is |
| `Grammar.TailKeys` | Elasticsearch/Query/Grammar/Grammar.php:390-428 | orders, limit and offset add `sort`, `size` and `from` exactly when set, with their values; other keys are kept |
| `Grammar.BodyKeys` | Elasticsearch/Query/Grammar/Grammar.php:415-456 | the body holds only `aggs`, `_source`, `query`, `filter`, `sort`, `size` and `from`, each present exactly when its component is, and with its value. `from` is the offset; the table never enters the body |
| `Grammar.SelectBodyKeys` | Elasticsearch/Query/Grammar/Grammar.php:435-456 | a compiled body is the reference `BodyOf` over a where result whose keys are `query` and `filter` |
| `Grammar.SelectNullColumns` | Elasticsearch/Query/Grammar/Grammar.php:56-73 | a select over null columns and no aggregate asks for `_source: []` |
| `Grammar.AggregateSearch` | Elasticsearch/Query/Builder.php:129-148 | the search an `aggregate` call runs has `aggs`, no `_source`, and `size` 1 |

## Findings

| source | as written | input that shows it | evidently intended | confidence | as-written member | corrected member |
|---|---|---|---|---|---|---|
| Elasticsearch/Query/Grammar/Grammar.php:192 | `count($query_cond['must_not'] > 0)` counts the boolean `[] > 0`, which is true. Before PHP 8 the guard then always holds; from PHP 8 on it throws whenever `must` is empty, also inside a nested group's compile | a single `where('a', '=', 1)` on table `t`, or no where clause at all | `count($query_cond['must_not']) > 0`: the query is sent exactly when `must` or `should` is non-empty | medium, not executed | `Wheres.AssembleAsWritten`, `WheresFacts.GuardCounterexample`, `WheresFacts.NestedCounterexample` | `Wheres.Assemble`, `WheresFacts.FalseWithoutScoring` |

## Left out

- `Elasticsearch/Connection.php`, `Elasticsearch/Query/Processors/Processor.php` and
  `Elasticsearch/Query/EloquentBuilder.php` are not part of this model: they are client I/O,
  response decoding and ORM wiring.
- The executed search (`runSelect` and `processSelectAggregate`) is the parameter `run`. The
  builder state that the search would see is returned as the ghost `ran`.
- `getTotal` (Builder.php:183-186) only passes a run to the processor, so it is not modelled.
- `compileUpdate` (Grammar.php:497-507) returns the encoding of an undefined variable, so it has
  no behaviour to model.
- The base Laravel builder and grammar are not part of this model.
  - `SelectComponents` assumes the base grammar's component order, which is the order of
    `selectComponentsMapping`.
  - The joins, groups, havings, unions and lock properties are taken as null. The package
    refuses only the join family. The inherited `groupBy`, `having`, `union` and `lock` setters
    and the base compilers of those components are not part of this model. Their results are
    therefore never stored under `groups`, `havings`, `unions` or `lock`.
  - The base-grammar `where*` methods that return SQL strings would be skipped on line 138. A
    record with no method here (`Other`) fails with `where<type>`, as `__call` does.
  - `whereInSub` gives the same failure: an `Other("InSub")` record yields `whereInSub`.
  - `addBinding` after `whereMultiMatch` only affects SQL bindings and is not modelled.
- `Grammar.CompileAggregate`: requires a known aggregate function. The code would read an
  undefined index (a notice) and key the aggregation by the empty string.
- `Wheres.Assemble`: uses the intended guard of Grammar.php:192, "`must` or `should` is
  non-empty". The literal `count($query_cond['must_not'] > 0)` is evaluated only when `must` is
  empty, and it counts the boolean `true`. Before PHP 8 that count is 1 (with a warning from 7.2
  on), so the query is always sent, with `must: []` when nothing is scored. From PHP 8 on it
  throws a TypeError, so a list with an empty `must` fails. So does a nested group with an empty
  `must` of its own, because `whereNested` compiles it through the same guard.
  `WheresSpecAsWritten` models both versions, nested compiles included (see "## Findings"). The
  rest of the model uses `Assemble`.
- `WheresFacts.GuardAsWritten`: its PHP 8 clause is stated only for lists without nested groups.
  With nested groups the failure also depends on each nested list's own `must`, which
  `NestedCounterexample` shows on one input.
- PHP array key order and JSON serialisation are not modelled: objects are maps.
- Floating-point values are not modelled.
- A where record's fields are typed, so the PHP notices for missing keys cannot arise.
- Order records of other kinds (raw orders) are not modelled.
- PHP method-name dispatch is case-insensitive. The model dispatches on the record's datatype
  constructor. An `Other` record whose type spells a known type in another letter case
  (`Other("basic")`) is outside the model: PHP would call that `where*` method, while the model
  fails with `where<type>`.
