# Mobile speed camera query compiler

A model of the query-string compiler in `MobileSpeedCameraService`, the Angular
service of the ACT mobile speed camera dashboard. The service reads the
Socrata dataset `https://www.data.act.gov.au/resource/d56a-2nhi.json`. A table
or chart passes it a request: a select list, paging (`first`, `rows`), a sort
column and direction, a group column, and a map of column filters. The service
turns the request into a SoQL query string of `&`-separated `$name=value`
parameters and appends it to the dataset URL.

The project has six modules:

- `Text` models the string operations the service relies on:
  - JavaScript's `Array.prototype.join`;
  - its partner, splitting at a separator character;
  - the decimal rendering a template literal gives an integer.
- `Soql` holds the request, the filter shapes and the fixed table of the nine
  filterable columns, in the order `buildQuery` visits them.
  - JavaScript truthiness is explicit: an absent string is `""`, an absent
    number `0`, an absent list `[]`, an absent date `None`.
  - A `matchMode` string is read by `DecodeMode`: every name some builder's
    `switch` tests becomes its own constructor, and `OtherMode` only ever holds
    a name none of them tests.
- `QueryCompiler` holds the specification functions. There is one per builder:
  - `DateQuery`, `TextQuery`, `NumericFragment`, `NumericFragments`,
    `NumericQuery`;
  - `WherePredicates` and the clause functions;
  - `CompileQuery`, the string `buildQuery` returns;
  - a "meaning" lemma beside each builder function.
- `QueryProperties` states what the compiled query means, split back into
  parameters:
  - `ParseQuery` splits at `&` and then at the first `=`, before any URL
    decoding;
  - when it is empty, which parameters it carries, and which filter keys and
    fields matter;
  - that a value containing `&` breaks the query apart, because values are
    copied in unescaped.
- `QueryScenarios` works through concrete requests.
- `SpeedCameraService` holds the imperative code:
  - `QueryList` is the `string[]` that `buildQuery` creates and its helpers
    push into;
  - `MobileSpeedCameraService` builds that array in place, with
    `buildDateQuery`, `buildStringQuery`, `buildNumericQuery` (a loop) and
    the where folding;
  - each method is proved to produce what the `QueryCompiler` functions say;
  - it also builds the URLs of `getData`, `getDataByQueryString`,
    `getMaxRecords` and `getTotalRecords`.

`buildQuery` is one method in the source. Here it is `BuildQuery` calling three
steps:

1. `BuildWhere` is the nine builder calls.
2. `FoldWhere` is the `$where=` folding.
3. `BuildTrailingClauses` is group, sort and pagination.

The statements and their order are the source's.

`request.filters` is required to be present. Every builder reads
`request.filters[colName]`, which throws when the field is absent.

Where the request type's comments and the code disagree, the model follows the
code:

- `first` becomes `$offset` and `rows` becomes `$limit`. The comments on the
  interface say the opposite.
- `sortField` is declared a number but is used as a column name, so it is a
  string here.
- A select list does not become a parameter of its own. It is pushed as the
  first where item, so the query starts `$where=$select=...`.
- `getTotalRecords` puts `$select=count(*)` in front of the whole query
  string, order, offset and limit included. With an empty query string it
  fetches the bare dataset URL.

## Model

| member | source | states |
|---|---|---|
| Soql.DecodeMode | src/app/demo/service/mobile-camera-speed.service.ts:149-239 | reading a `matchMode` string: each of the fourteen names the builders' `switch` statements test becomes its own mode, and any other name becomes `OtherMode` holding it; the mode's name is the string read |
| Soql.DecodeModeName | src/app/demo/service/mobile-camera-speed.service.ts:149-239 | decoding a decoded mode's name gives that mode back |
| Text.Join | src/app/demo/service/mobile-camera-speed.service.ts:140 | `Array.prototype.join`, characterised by `Text.JoinEmptyIff` and `Text.JoinPrefixFirst`, with `Text.SplitJoin` as its inverse |
| Text.JoinEmptyIff | src/app/demo/service/mobile-camera-speed.service.ts:140 | joining non-empty parts gives the empty string exactly when there are no parts |
| Text.JoinPrefixFirst | src/app/demo/service/mobile-camera-speed.service.ts:101-104 | writing `$where=` in front of the first item and then joining is the same as writing it in front of the join |
| Text.SplitJoin | src/app/demo/service/mobile-camera-speed.service.ts:140 | splitting at `c` undoes joining with `c` when no part contains `c` |
| Text.SplitLength | src/app/demo/service/mobile-camera-speed.service.ts:140 | splitting at `c` yields one piece more than there are occurrences of `c` |
| Text.JoinOccurrences | src/app/demo/service/mobile-camera-speed.service.ts:140 | a join with `c` has at least as many `c`s as parts once one part contains a `c` |
| Text.IntToString | src/app/demo/service/mobile-camera-speed.service.ts:133-137 | the decimal rendering of an integer is non-empty and holds no `&` and no quote |
| Text.IntToStringRoundTrip | src/app/demo/service/mobile-camera-speed.service.ts:217-237 | the rendering of every integer parses back to that integer, so different values give different fragments |
| QueryCompiler.DateQuery | src/app/demo/service/mobile-camera-speed.service.ts:143-167 | buildDateQuery's output, characterised by `QueryCompiler.DateQueryMeaning` against the `DateComparison` table |
| QueryCompiler.DateQueryMeaning | src/app/demo/service/mobile-camera-speed.service.ts:143-167 | at most one predicate is pushed. It is pushed exactly when the filter is a date filter with a date and one of the four date modes. It is `col<op>'<formatted date>'` |
| QueryCompiler.TextQuery | src/app/demo/service/mobile-camera-speed.service.ts:169-199 | buildStringQuery's output, characterised by `QueryCompiler.TextQueryMeaning` against the `TextTemplate` table |
| QueryCompiler.TextQueryMeaning | src/app/demo/service/mobile-camera-speed.service.ts:169-199 | at most one predicate is pushed. It is pushed exactly when the filter is a text filter with a non-empty value and one of the six text modes. It is the mode's template around the value, copied verbatim |
| QueryCompiler.NumericFragment | src/app/demo/service/mobile-camera-speed.service.ts:211-239 | one pass of buildNumericQuery's loop, characterised by `QueryCompiler.NumericFragmentMeaning` against the `NumericComparison` table |
| QueryCompiler.NumericFragmentMeaning | src/app/demo/service/mobile-camera-speed.service.ts:211-239 | one loop pass keeps an entry exactly when its value is non-zero and its mode is one of the six numeric modes, as `col<op><value>` |
| QueryCompiler.NumericFragmentShape | src/app/demo/service/mobile-camera-speed.service.ts:215-239 | one loop pass adds at most one fragment, and that fragment strictly extends the column name |
| QueryCompiler.NumericFragments | src/app/demo/service/mobile-camera-speed.service.ts:208-240 | `tempQuery` after the loop, characterised by `QueryCompiler.NumericFragmentsShape` and `QueryProperties.NumericFragmentsCons`, and tied to the loop by `BuildNumericQuery`'s invariant |
| QueryCompiler.NumericFragmentsShape | src/app/demo/service/mobile-camera-speed.service.ts:208-240 | the loop keeps at most one fragment per entry, and every fragment starts with the column name |
| QueryCompiler.NumericQuery | src/app/demo/service/mobile-camera-speed.service.ts:201-250 | buildNumericQuery's output, characterised by `QueryCompiler.NumericQueryMeaning` |
| QueryCompiler.NumericQueryMeaning | src/app/demo/service/mobile-camera-speed.service.ts:201-250 | at most one predicate is pushed, exactly when some entry is kept. A single fragment is pushed bare. Several are joined by the first entry's operator inside parentheses |
| QueryCompiler.WherePredicates | src/app/demo/service/mobile-camera-speed.service.ts:89-97 | the predicates of the nine builder calls, characterised by `QueryProperties.WhereUnrolled` and `QueryCompiler.PredicatesOfShape` |
| QueryCompiler.PredicatesOfShape | src/app/demo/service/mobile-camera-speed.service.ts:89-97 | the visited columns push at most one predicate each, and none is empty |
| QueryCompiler.CompileQuery | src/app/demo/service/mobile-camera-speed.service.ts:80-141 | buildQuery's result, characterised by `QueryProperties.ParseCompiledQuery`, `QueryProperties.CompileQueryEmptyIff` and `QueryProperties.AmpersandInItemAddsParameters` |
| QueryProperties.ParamOf | src/app/demo/service/mobile-camera-speed.service.ts:85 | a clause `name=value` with `=`-free name reads back as that name and value |
| QueryProperties.ParamsAppend | src/app/demo/service/mobile-camera-speed.service.ts:140 | reading back a concatenation of clauses reads back each part in order |
| QueryProperties.WhereParams | src/app/demo/service/mobile-camera-speed.service.ts:100-107 | the folded where clause reads back as one `$where` parameter holding the items joined by ` and `, or nothing when there were none |
| QueryProperties.GroupParams | src/app/demo/service/mobile-camera-speed.service.ts:110-112 | a non-empty group reads back as `$group`, an empty one as nothing |
| QueryProperties.OrderParams | src/app/demo/service/mobile-camera-speed.service.ts:121-129 | a non-empty sort field reads back as `$order`, with ` desc` exactly when the sort order is -1 |
| QueryProperties.PageParams | src/app/demo/service/mobile-camera-speed.service.ts:132-138 | a non-zero `first` or `rows` reads back as `$offset` or `$limit` with its decimal value, and zero as nothing |
| QueryProperties.AssembleParams | src/app/demo/service/mobile-camera-speed.service.ts:100-138 | the clauses read back as the expected `$where`, `$group`, `$order`, `$offset`, `$limit` parameters, in that order, each present only when its field is truthy |
| QueryProperties.DateQueryAmpersandFree | src/app/demo/service/mobile-camera-speed.service.ts:143-167 | a date predicate holds no `&` when the formatted date holds none |
| QueryProperties.TextQueryAmpersandFree | src/app/demo/service/mobile-camera-speed.service.ts:169-199 | a text predicate holds no `&` when the filter value holds none |
| QueryProperties.NumericFragmentAmpersandFree | src/app/demo/service/mobile-camera-speed.service.ts:215-239 | a numeric fragment never holds `&` |
| QueryProperties.NumericFragmentsAmpersandFree | src/app/demo/service/mobile-camera-speed.service.ts:208-240 | no fragment the loop keeps holds `&` |
| QueryProperties.NumericQueryAmpersandFree | src/app/demo/service/mobile-camera-speed.service.ts:201-250 | a numeric predicate never holds `&` |
| QueryProperties.ColumnQueryAmpersandFree | src/app/demo/service/mobile-camera-speed.service.ts:143-250 | no builder pushes a predicate holding `&` when the request's values hold none |
| QueryProperties.PredicatesOfAmpersandFree | src/app/demo/service/mobile-camera-speed.service.ts:89-97 | no collected predicate holds `&` when the values and column names hold none |
| QueryProperties.WhereColumnNamesAmpersandFree | src/app/demo/service/mobile-camera-speed.service.ts:89-97 | none of the nine column names holds `&` |
| QueryProperties.WhereItemsAmpersandFree | src/app/demo/service/mobile-camera-speed.service.ts:84-97 | no where item holds `&` when the request's values hold none |
| QueryProperties.AssembleAmpersandFree | src/app/demo/service/mobile-camera-speed.service.ts:100-138 | no clause holds `&` when the items, group and sort field hold none |
| QueryProperties.ParseCompiledQuery | src/app/demo/service/mobile-camera-speed.service.ts:80-141 | split at `&` and the first `=`, before URL decoding, the compiled query gives exactly the expected parameters, in order, when no value that reaches it holds `&` |
| QueryProperties.AmpersandInItemAddsParameters | src/app/demo/service/mobile-camera-speed.service.ts:100-140 | once a where item holds `&`, the query reads back as more parameters than the request stands for |
| QueryProperties.PredicatesOfHas | src/app/demo/service/mobile-camera-speed.service.ts:89-97 | every predicate a visited column pushes is among the collected predicates |
| QueryProperties.TextValueAmpersandAddsParameters | src/app/demo/service/mobile-camera-speed.service.ts:169-199 | a text filter whose value holds `&`, on a text column with a known mode, makes the query read back as more parameters than the request stands for |
| QueryProperties.AssembleNonEmpty | src/app/demo/service/mobile-camera-speed.service.ts:100-138 | every clause pushed is non-empty |
| QueryProperties.CompileQueryEmptyIff | src/app/demo/service/mobile-camera-speed.service.ts:80-141 | the query string is empty exactly when the request has no select list, no where predicate, no group, no sort field, and zero `first` and `rows` |
| QueryProperties.SelectSwallowedIntoWhere | src/app/demo/service/mobile-camera-speed.service.ts:84-107 | a select list makes the query start `$where=$select=a,b`. Without filters that is the whole where clause |
| QueryProperties.WhereHeadLeads | src/app/demo/service/mobile-camera-speed.service.ts:100-140 | the first where item, prefixed with `$where=`, starts the query string, and is the whole where clause when alone |
| QueryProperties.PredicatesOfIgnoreKey | src/app/demo/service/mobile-camera-speed.service.ts:144 | a filter under a key no visited column has does not change the predicates |
| QueryProperties.UnknownColumnIgnored | src/app/demo/service/mobile-camera-speed.service.ts:89-97 | a filter on a column outside the nine does not change the query string |
| QueryProperties.HavingIgnored | src/app/demo/service/mobile-camera-speed.service.ts:114-118 | the `having` field does not change the query string |
| QueryProperties.PredicatesOfSnoc | src/app/demo/service/mobile-camera-speed.service.ts:89-97 | visiting one more column appends what its builder pushes |
| QueryProperties.WhereUnrolled | src/app/demo/service/mobile-camera-speed.service.ts:89-97 | the where predicates are what the nine builders push, one after the other, in the source's column order |
| QueryProperties.UnfilteredColumns | src/app/demo/service/mobile-camera-speed.service.ts:144-146 | columns without a filter push nothing |
| QueryProperties.NumericFragmentsCons | src/app/demo/service/mobile-camera-speed.service.ts:210-240 | the loop's fragments for a list are the first entry's fragment followed by the rest's |
| QueryScenarios.EmptyRequestCompilesToNothing | src/app/demo/service/mobile-camera-speed.service.ts:80-141 | an empty request compiles to the empty query string |
| QueryScenarios.SelectOnlyRequest | src/app/demo/service/mobile-camera-speed.service.ts:84-107 | a select list `a, b` alone compiles to `$where=$select=a,b` |
| QueryScenarios.DateBeforeFragment | src/app/demo/service/mobile-camera-speed.service.ts:158-160 | a `dateBefore` filter gives `date<'2020-03-01'` |
| QueryScenarios.StreetContainsFragment | src/app/demo/service/mobile-camera-speed.service.ts:182-184 | a `contains` filter on `street` gives `contains(street,'Smith')` |
| QueryScenarios.GtFiveLtTwo | src/app/demo/service/mobile-camera-speed.service.ts:210-240 | entries `gt 5` and `lt 2` give the fragments `posted_speed>5` and `posted_speed<2` |
| QueryScenarios.TwoFragmentGroup | src/app/demo/service/mobile-camera-speed.service.ts:242-246 | two kept fragments are joined by the first entry's operator and parenthesised |
| QueryScenarios.NumericOrGroup | src/app/demo/service/mobile-camera-speed.service.ts:201-250 | `gt 5 or lt 2` on `posted_speed` gives `(posted_speed>5 or posted_speed<2)` |
| QueryScenarios.SkippedFirstEntryStillSetsJoiner | src/app/demo/service/mobile-camera-speed.service.ts:211-213 | a first entry skipped for its zero value still decides the joiner of the kept entries |
| QueryScenarios.PostedSpeedSixty | src/app/demo/service/mobile-camera-speed.service.ts:89-97 | a single `posted_speed = 60` filter is the only where predicate, `posted_speed=60` |
| QueryScenarios.WhereOrderLimitClauses | src/app/demo/service/mobile-camera-speed.service.ts:100-138 | one predicate, a descending sort on `date` and 10 rows give the clauses `$where=...`, `$order=date desc`, `$limit=10` |
| QueryScenarios.FilterSortAndLimit | src/app/demo/service/mobile-camera-speed.service.ts:80-141 | that request compiles to `$where=posted_speed=60&$order=date desc&$limit=10` |
| SpeedCameraService.QueryList.constructor | src/app/demo/service/mobile-camera-speed.service.ts:81 | the array starts empty |
| SpeedCameraService.QueryList.Push | src/app/demo/service/mobile-camera-speed.service.ts:85 | `push` appends one element and keeps the others |
| SpeedCameraService.QueryList.Set | src/app/demo/service/mobile-camera-speed.service.ts:101 | assigning an existing index replaces that element only |
| SpeedCameraService.QueryList.Truncate | src/app/demo/service/mobile-camera-speed.service.ts:105 | setting `length` shortens the array to its prefix |
| SpeedCameraService.MobileSpeedCameraService.constructor | src/app/demo/service/mobile-camera-speed.service.ts:21-23 | the service points at the dataset URL and keeps the injected date formatter |
| SpeedCameraService.MobileSpeedCameraService.BuildQuery | src/app/demo/service/mobile-camera-speed.service.ts:80-141 | buildQuery returns the compiled query string of the request |
| SpeedCameraService.MobileSpeedCameraService.BuildWhere | src/app/demo/service/mobile-camera-speed.service.ts:89-97 | the nine builder calls append exactly the where predicates, in column order |
| SpeedCameraService.MobileSpeedCameraService.FoldWhere | src/app/demo/service/mobile-camera-speed.service.ts:100-107 | the collected items are replaced by one `$where=` clause joining them with ` and `, and nothing happens when there are none |
| SpeedCameraService.MobileSpeedCameraService.BuildTrailingClauses | src/app/demo/service/mobile-camera-speed.service.ts:109-138 | the group, order, offset and limit clauses are appended in that order, each only when its field is truthy |
| SpeedCameraService.MobileSpeedCameraService.BuildDateQuery | src/app/demo/service/mobile-camera-speed.service.ts:143-167 | buildDateQuery appends the date predicate of the column and nothing else |
| SpeedCameraService.MobileSpeedCameraService.BuildStringQuery | src/app/demo/service/mobile-camera-speed.service.ts:169-199 | buildStringQuery appends the text predicate of the column and nothing else |
| SpeedCameraService.MobileSpeedCameraService.BuildNumericQuery | src/app/demo/service/mobile-camera-speed.service.ts:201-250 | buildNumericQuery's loop collects the kept fragments, and the method appends the numeric predicate of the column and nothing else |
| SpeedCameraService.MobileSpeedCameraService.GetDataUrl | src/app/demo/service/mobile-camera-speed.service.ts:25-31 | getData fetches the dataset URL, followed by `?` and the query string when that is non-empty |
| SpeedCameraService.MobileSpeedCameraService.GetTotalRecordsUrl | src/app/demo/service/mobile-camera-speed.service.ts:54-60 | getTotalRecords fetches `?$select=count(*)&` and the query string, or the bare URL when the query string is empty |
| SpeedCameraService.DataUrl | src/app/demo/service/mobile-camera-speed.service.ts:25-31 | getData's URL, characterised by `SpeedCameraService.DataUrlQuery` |
| SpeedCameraService.QueryStringUrl | src/app/demo/service/mobile-camera-speed.service.ts:43-44 | getDataByQueryString's URL, characterised by `SpeedCameraService.QueryStringUrlQuery` |
| SpeedCameraService.MaxRecordsUrl | src/app/demo/service/mobile-camera-speed.service.ts:49-50 | getMaxRecords's URL, characterised by `SpeedCameraService.MaxRecordsUrlQuery` |
| SpeedCameraService.TotalRecordsUrl | src/app/demo/service/mobile-camera-speed.service.ts:54-60 | getTotalRecords's URL, characterised by `SpeedCameraService.TotalRecordsUrlQuery` |
| SpeedCameraService.UrlQueryAfterBase | src/app/demo/service/mobile-camera-speed.service.ts:30 | the query part of `base?rest` is `rest` when the base has no `?` |
| SpeedCameraService.DatasetUrlHasNoQuery | src/app/demo/service/mobile-camera-speed.service.ts:21 | the dataset URL holds no `?` |
| SpeedCameraService.DataUrlQuery | src/app/demo/service/mobile-camera-speed.service.ts:25-31 | the query part of getData's URL is exactly the compiled query string |
| SpeedCameraService.QueryStringUrlQuery | src/app/demo/service/mobile-camera-speed.service.ts:43-44 | getDataByQueryString passes the caller's query string through unchanged, and always writes the `?` |
| SpeedCameraService.MaxRecordsUrlQuery | src/app/demo/service/mobile-camera-speed.service.ts:49-50 | getMaxRecords asks for `$select=count(*)` and nothing else |
| SpeedCameraService.ParseQueryPrepend | src/app/demo/service/mobile-camera-speed.service.ts:59 | an `&`-free clause in front of a query string reads back as its parameter first, then the rest |
| SpeedCameraService.TotalRecordsUrlSplit | src/app/demo/service/mobile-camera-speed.service.ts:59 | the query part of the count URL is `$select=count(*)&` followed by the query string |
| SpeedCameraService.CountParams | src/app/demo/service/mobile-camera-speed.service.ts:59 | the count URL's query reads back as `$select=count(*)` followed by the data query's parameters |
| SpeedCameraService.TotalRecordsUrlQuery | src/app/demo/service/mobile-camera-speed.service.ts:54-60 | getTotalRecords asks for `count(*)` plus every parameter of the data request, order, offset and limit included. An empty query string gives the bare dataset URL |

## Left out

- HTTP and promises are not modelled: `http.get`, `lastValueFrom`, the
  `console.log` of the URL, and reading `result[0].count`. The model stops at
  the URL each method fetches.
- `getDataByUrl` only forwards a caller's URL to HTTP, so there is nothing to
  model.
- Angular's `DatePipe` is the constructor parameter `formatDate`. Its
  `yyyy-MM-dd` rendering and the exception it throws on an invalid date are not
  modelled.
- Numeric values are integers. Fractions, `NaN`, and values that arrive as
  strings are not modelled.
- Text.IntToString: values are assumed to be safe integers (at most 2^53 in
  magnitude). JavaScript numbers are doubles, and `${n}` prints the shortest
  digits that round-trip, so larger values render differently (`2**64` gives
  `18446744073709552000`, and 1e21 and above use exponent form).
- QueryProperties.ParseQuery: the reading stops at the `&`/`=` structure and
  comes before URL decoding. A `#` in a value ends the query part of the URL,
  so the rest never reaches the server, and `%xx` escapes are decoded (the
  `%25` of `endsWith` becomes `%`). `AmpersandFree` does not exclude `#` or
  `%`, so `ParseCompiledQuery` says nothing about what the server sees for
  such values.
- QueryCompiler.DateQuery: a filter whose shape does not fit the column's
  builder pushes nothing. The source tests only truthiness. For example, a text
  filter object on `date` would go through `DatePipe`. This is exact for lists
  against objects, but not between date and text objects.
- The service does not percent-encode the query string. How `HttpClient`
  encodes the URL is not part of this model.
- The commented-out `groupByPostedSpeed` and `$having` code is not
  behaviour. The `having` field is carried and proved ignored.
- The chart, dashboard and table components that call the service are not part
  of this model.
