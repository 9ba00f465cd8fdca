# CommonDao: query compilation, versioned writes and best-effort reads

A Dafny model of the generic HBase entity DAO `CommonDao` of smart-hbase. Three parts of it are modelled and proved.

- **The query compiler.** `formScan`, `getFilter`, `handlePropertyParam`, `getCellFilter`, `getInFilter` and the name and value helpers lower a tree of query parameters into an HBase filter tree. As they go they set the scan's start row and its column requests. `getMaxScanRows` picks the scan's row limit.
- **The write path.** `save`, `update` and `delete` first run an all-or-nothing existence check. They then check entity validity and group the converted mutations per table in first-appearance order. Each table's batch is written either optimistically or not:
  - Optimistic writes are version-stamped compare-and-swaps, and the failure messages are collected by `throwIfErrors`.
  - Non-optimistic writes are plain batch writes, and every entity's lock is released once per table.
- **The best-effort reads.** `getByIds` drops ids whose fetch fails or finds nothing, and removes duplicates. `scanList` converts up to `maxRows` scanned rows and rethrows a conversion failure. `getList` and `getAll` are built on it.

The source's methods are modelled in the source's own form, and each is proved against a specification function:
- `getFilter`, `handlePropertyParam` and `getInFilter` append to a list in a loop and write to a shared `Scan`. They are methods on a `Scan` class. Each is proved equal to a function in `FilterSpec`, and `FilterLemmas` proves properties of those functions.
- The write path's methods update a `Store` class, which stands for HBase and the DAO's collaborators. They are proved equal to the functions of `WriteSpec` over a `World` value, and `WriteLemmas` proves the write rules about those functions.
- The per-table grouping of `put` and `deleteNonOptimistically` builds a `LinkedHashMap` in place, modelled as a key order and a map (`Grouping`).

Modules:
- `Wrappers`: Option and Result.
- `Text`: blank test, `indexOf` and `Arrays.toString`.
- `QueryParams`: the query-parameter tree.
- `Filters`: the filter and comparator tree and `FilterConfig`.
- `FilterSpec`, `FilterCompiler` and `FilterLemmas`: the compiler.
- `Reads`: the read path.
- `Grouping`: the per-table grouping.
- `WriteSpec`, `WriteEngine` and `WriteLemmas`: the write path.

Java conventions used throughout:
- `null` is `None`.
- A value is held as its `toString()` text.
- An exception the source lets escape is an `Err` or `Failure` result.
- A version is a Java `long`, and its increment wraps at `Long.MAX_VALUE`.

## Model

| member | source | states |
|---|---|---|
| FilterSpec.PropertyName | smart-hbase/smart-hbase-dao/src/main/java/com/smartitengineering/dao/impl/hbase/CommonDao.java:643-652 | the name is the parameter's own name, prefixed by `prefix + "."` only when the prefix is not blank |
| FilterSpec.ValueText | smart-hbase/smart-hbase-dao/src/main/java/com/smartitengineering/dao/impl/hbase/CommonDao.java:676-688 | a present value gives its text, a missing or null value gives `""`, and only value-carrying parameters can give a non-empty text |
| FilterSpec.FirstOperand | smart-hbase/smart-hbase-dao/src/main/java/com/smartitengineering/dao/impl/hbase/CommonDao.java:663-670 | a two-operand parameter gives its first value (possibly null), and any other parameter gives `""` |
| FilterSpec.SecondOperand | smart-hbase/smart-hbase-dao/src/main/java/com/smartitengineering/dao/impl/hbase/CommonDao.java:654-661 | a two-operand parameter gives its second value (possibly null), and any other parameter gives `""` |
| FilterSpec.CellFilter | smart-hbase/smart-hbase-dao/src/main/java/com/smartitengineering/dao/impl/hbase/CommonDao.java:610-633 | a row filter iff the config filters on the row id; a qualifier filter iff not that and the qualifier is a range prefix; otherwise a column-value filter carrying the config's family, qualifier, filter-if-missing and latest-version-only flags; the operator and comparator are always the ones passed in |
| FilterSpec.Cell | smart-hbase/smart-hbase-dao/src/main/java/com/smartitengineering/dao/impl/hbase/CommonDao.java:610-612 | a missing filter config fails exactly when a cell filter is built, otherwise the result is the cell filter |
| FilterSpec.WithFilterIfMissing | smart-hbase/smart-hbase-dao/src/main/java/com/smartitengineering/dao/impl/hbase/CommonDao.java:546-557 | the flag is overridden on column-value filters only, and other filters are unchanged |
| FilterSpec.InItems | smart-hbase/smart-hbase-dao/src/main/java/com/smartitengineering/dao/impl/hbase/CommonDao.java:635-641 | the list holds one EQUAL binary cell filter per value, in input order; it fails iff a value is null, or values exist and the config is missing |
| FilterSpec.InFilter | smart-hbase/smart-hbase-dao/src/main/java/com/smartitengineering/dao/impl/hbase/CommonDao.java:635-641 | the result is a MUST_PASS_ONE list with as many members as values |
| FilterSpec.SplitAtColon | smart-hbase/smart-hbase-dao/src/main/java/com/smartitengineering/dao/impl/hbase/CommonDao.java:472-481 | the part before the split has no colon; without a colon the name is unchanged; otherwise the name is `before + ":" + after`, split at the first colon |
| FilterSpec.UnitColumn | smart-hbase/smart-hbase-dao/src/main/java/com/smartitengineering/dao/impl/hbase/CommonDao.java:482-493 | no column request iff the configured name has no config; the family is the config's; a non-blank dynamic qualifier wins; a whole-family request only when the configured qualifier is missing or empty |
| FilterSpec.Compile | smart-hbase/smart-hbase-dao/src/main/java/com/smartitengineering/dao/impl/hbase/CommonDao.java:508-510 | an empty parameter list compiles to the match-all row filter and leaves the scan unchanged |
| FilterSpec.DefaultScanRows | smart-hbase/smart-hbase-dao/src/main/java/com/smartitengineering/dao/impl/hbase/CommonDao.java:159-161 | the limit is always positive: the configured maximum when it is positive, otherwise 1000 |
| Text.IndexOf | smart-hbase/smart-hbase-dao/src/main/java/com/smartitengineering/dao/impl/hbase/CommonDao.java:472 | -1 iff the character is absent; otherwise the position of its first occurrence |
| FilterCompiler.GetFilter | smart-hbase/smart-hbase-dao/src/main/java/com/smartitengineering/dao/impl/hbase/CommonDao.java:433-512 | the loop returns exactly `Compile`'s filter or error and leaves the scan in `Compile`'s state; the scan's filter is untouched |
| FilterCompiler.VisitParam | smart-hbase/smart-hbase-dao/src/main/java/com/smartitengineering/dao/impl/hbase/CommonDao.java:438-498 | one pass of the switch has exactly the effect of `Step` on the filter list and on the scan |
| FilterCompiler.HandlePropertyParam | smart-hbase/smart-hbase-dao/src/main/java/com/smartitengineering/dao/impl/hbase/CommonDao.java:514-608 | appends exactly the property's filter to the list, or fails with its error |
| FilterCompiler.GetInFilter | smart-hbase/smart-hbase-dao/src/main/java/com/smartitengineering/dao/impl/hbase/CommonDao.java:635-641 | the loop builds exactly `InFilter` |
| FilterCompiler.FormScan | smart-hbase/smart-hbase-dao/src/main/java/com/smartitengineering/dao/impl/hbase/CommonDao.java:416-423 | a fresh scan whose start row, column requests and filter are those of `PlanOf`; the filter is unset when `getFilter` gives null, and a compile error propagates |
| FilterCompiler.GetMaxScanRows | smart-hbase/smart-hbase-dao/src/main/java/com/smartitengineering/dao/impl/hbase/CommonDao.java:163-173 | the value of the first MAX_RESULT parameter, whatever its size; otherwise the default limit; equal to `MaxScanRows` |
| FilterCompiler.Scan.SetStartRow | smart-hbase/smart-hbase-dao/src/main/java/com/smartitengineering/dao/impl/hbase/CommonDao.java:466 | sets the start row and nothing else |
| FilterCompiler.Scan.AddColumn | smart-hbase/smart-hbase-dao/src/main/java/com/smartitengineering/dao/impl/hbase/CommonDao.java:485-491 | appends one column or family request and changes nothing else |
| FilterCompiler.Scan.SetFilter | smart-hbase/smart-hbase-dao/src/main/java/com/smartitengineering/dao/impl/hbase/CommonDao.java:420-422 | sets the filter and nothing else |
| FilterLemmas.CompileMatchesReference | smart-hbase/smart-hbase-dao/src/main/java/com/smartitengineering/dao/impl/hbase/CommonDao.java:433-512 | the loop's filter equals a scan-free reference definition, and the scan it leaves equals a filter-free reference walk |
| FilterLemmas.WalkMatchesReference | smart-hbase/smart-hbase-dao/src/main/java/com/smartitengineering/dao/impl/hbase/CommonDao.java:437-499 | the loop appends exactly the reference items of its parameters, in order |
| FilterLemmas.StepMatchesReference | smart-hbase/smart-hbase-dao/src/main/java/com/smartitengineering/dao/impl/hbase/CommonDao.java:438-498 | one pass appends at most the parameter's own reference item and changes the scan as the reference does |
| FilterLemmas.ItemsCount | smart-hbase/smart-hbase-dao/src/main/java/com/smartitengineering/dao/impl/hbase/CommonDao.java:437-499 | a level's list holds exactly one filter per conjunction, disjunction, nested-property or property parameter |
| FilterLemmas.NoPredicatesNoItems | smart-hbase/smart-hbase-dao/src/main/java/com/smartitengineering/dao/impl/hbase/CommonDao.java:464-497 | a level with only paging, projection or ignored parameters collects no filters |
| FilterLemmas.LevelShape | smart-hbase/smart-hbase-dao/src/main/java/com/smartitengineering/dao/impl/hbase/CommonDao.java:500-506 | a non-empty level gives null iff it has no predicates; otherwise a list with the given operator and one member per predicate |
| FilterLemmas.SinglePredicateWrapped | smart-hbase/smart-hbase-dao/src/main/java/com/smartitengineering/dao/impl/hbase/CommonDao.java:500-502 | a single predicate is still wrapped in a one-member list |
| FilterLemmas.ScanFilterWithoutPredicates | smart-hbase/smart-hbase-dao/src/main/java/com/smartitengineering/dao/impl/hbase/CommonDao.java:416-423 | an empty query filters with match-all; a non-empty query without predicates leaves the scan unfiltered |
| FilterLemmas.PlanFilterIsReference | smart-hbase/smart-hbase-dao/src/main/java/com/smartitengineering/dao/impl/hbase/CommonDao.java:416-423 | the scan's filter is the reference filter, and unset when that filter is null; errors agree |
| FilterLemmas.CompoundDropsPrefix | smart-hbase/smart-hbase-dao/src/main/java/com/smartitengineering/dao/impl/hbase/CommonDao.java:439-458 | conjunction and disjunction compile their children with an empty prefix, with MUST_PASS_ALL and MUST_PASS_ONE respectively, whatever the enclosing prefix |
| FilterLemmas.NestedPropertyPrefix | smart-hbase/smart-hbase-dao/src/main/java/com/smartitengineering/dao/impl/hbase/CommonDao.java:446-452 | a nested property compiles its children with MUST_PASS_ALL under `prefix + "." + name`, or under `name` when the prefix is blank |
| FilterLemmas.NotInIsSkippedIn | smart-hbase/smart-hbase-dao/src/main/java/com/smartitengineering/dao/impl/hbase/CommonDao.java:594-605 | IS_NOT_IN is exactly the IS_IN list wrapped in a skip filter, and both fail alike |
| FilterLemmas.InListMembers | smart-hbase/smart-hbase-dao/src/main/java/com/smartitengineering/dao/impl/hbase/CommonDao.java:594-598 | IS_IN gives a MUST_PASS_ONE list of one EQUAL binary cell filter per value, in order |
| FilterLemmas.EmptyInNeedsNoConfig | smart-hbase/smart-hbase-dao/src/main/java/com/smartitengineering/dao/impl/hbase/CommonDao.java:635-641 | an empty IS_IN or IS_NOT_IN builds an empty list, even without a filter config |
| FilterLemmas.EmptinessFilters | smart-hbase/smart-hbase-dao/src/main/java/com/smartitengineering/dao/impl/hbase/CommonDao.java:543-560 | IS_EMPTY and IS_NULL give EQUAL `""` with filter-if-missing forced false; IS_NOT_EMPTY and IS_NOT_NULL give NOT_EQUAL `""` with it forced true; the force applies to column-value filters only |
| FilterLemmas.StringLikeModes | smart-hbase/smart-hbase-dao/src/main/java/com/smartitengineering/dao/impl/hbase/CommonDao.java:561-585 | STRING_LIKE without a match mode is EXACT; EXACT, START, END and ANYWHERE select the binary, prefix, suffix and substring comparators, all under EQUAL |
| FilterLemmas.BetweenDefaultsToEmpty | smart-hbase/smart-hbase-dao/src/main/java/com/smartitengineering/dao/impl/hbase/CommonDao.java:586-593 | BETWEEN on a parameter without two operands compares against the range `("", "")` |
| FilterLemmas.ComparisonOperators | smart-hbase/smart-hbase-dao/src/main/java/com/smartitengineering/dao/impl/hbase/CommonDao.java:519-542 | the six comparison operators map to EQUAL, NOT_EQUAL, LESS, LESS_OR_EQUAL, GREATER and GREATER_OR_EQUAL on the value's text |
| FilterLemmas.PropertyErrors | smart-hbase/smart-hbase-dao/src/main/java/com/smartitengineering/dao/impl/hbase/CommonDao.java:515-518 | a property without an operator fails, and a comparison on a property without a filter config fails |
| FilterLemmas.ScanAfterAppend | smart-hbase/smart-hbase-dao/src/main/java/com/smartitengineering/dao/impl/hbase/CommonDao.java:437-499 | the scan changes of a concatenated parameter list compose in order |
| FilterLemmas.StartRowUntouched | smart-hbase/smart-hbase-dao/src/main/java/com/smartitengineering/dao/impl/hbase/CommonDao.java:437-468 | parameters with no FIRST_RESULT at any depth of nesting leave the scan's start row unchanged |
| FilterLemmas.LastFirstResultWins | smart-hbase/smart-hbase-dao/src/main/java/com/smartitengineering/dao/impl/hbase/CommonDao.java:437-468 | a FIRST_RESULT sets the start row (a null value giving `""`), whatever came before it, provided no FIRST_RESULT follows it at any depth |
| FilterLemmas.NestedFirstResultOverrides | smart-hbase/smart-hbase-dao/src/main/java/com/smartitengineering/dao/impl/hbase/CommonDao.java:437-468 | because nested lists share the scan, a FIRST_RESULT nested in a later conjunction overrides the level's own earlier FIRST_RESULT |
| FilterLemmas.ColumnsOnlyGrow | smart-hbase/smart-hbase-dao/src/main/java/com/smartitengineering/dao/impl/hbase/CommonDao.java:469-495 | compiling never removes a column request: the earlier requests stay a prefix |
| FilterLemmas.DynamicQualifierWins | smart-hbase/smart-hbase-dao/src/main/java/com/smartitengineering/dao/impl/hbase/CommonDao.java:474-486 | `name:qualifier` requests that qualifier in the configured family of `name` |
| FilterLemmas.ColonSplitUnique | smart-hbase/smart-hbase-dao/src/main/java/com/smartitengineering/dao/impl/hbase/CommonDao.java:472-476 | splitting at the first colon is unambiguous |
| Reads.ByIdCallback | smart-hbase/smart-hbase-dao/src/main/java/com/smartitengineering/dao/impl/hbase/CommonDao.java:286-303 | a lookup throws iff its fetch failed or the conversion threw; it yields an entity iff a non-empty row converted to a non-null entity |
| Reads.Distinct | smart-hbase/smart-hbase-dao/src/main/java/com/smartitengineering/dao/impl/hbase/CommonDao.java:263-274 | the `LinkedHashSet` keeps every element, adds nothing, keeps no duplicate and is no longer than its input |
| Reads.Futures | smart-hbase/smart-hbase-dao/src/main/java/com/smartitengineering/dao/impl/hbase/CommonDao.java:264-266 | one future per id, each the callback's outcome for that id |
| Reads.PresentMembers | smart-hbase/smart-hbase-dao/src/main/java/com/smartitengineering/dao/impl/hbase/CommonDao.java:267-277 | an entity is collected iff some future returned it, non-null |
| Reads.ByIdsMembers | smart-hbase/smart-hbase-dao/src/main/java/com/smartitengineering/dao/impl/hbase/CommonDao.java:261-279 | an entity is in the result iff the lookup of some id returned it; no entity appears twice |
| Reads.DistinctOfDistinct | smart-hbase/smart-hbase-dao/src/main/java/com/smartitengineering/dao/impl/hbase/CommonDao.java:263 | a sequence without duplicates is its own `LinkedHashSet` |
| Reads.DistinctIdempotent | smart-hbase/smart-hbase-dao/src/main/java/com/smartitengineering/dao/impl/hbase/CommonDao.java:263 | building the set twice changes nothing |
| Reads.GetByIds | smart-hbase/smart-hbase-dao/src/main/java/com/smartitengineering/dao/impl/hbase/CommonDao.java:261-279 | the two loops return exactly `ByIds` |
| Reads.Next | smart-hbase/smart-hbase-dao/src/main/java/com/smartitengineering/dao/impl/hbase/CommonDao.java:357 | `scanner.next(n)` returns a prefix of the matching rows, at most `n` long, and all of them when `n` covers them |
| Reads.ScanList | smart-hbase/smart-hbase-dao/src/main/java/com/smartitengineering/dao/impl/hbase/CommonDao.java:349-414 | the two loops return exactly `ScanResult`: empty and missing rows are skipped, null conversions are dropped, and the first failing conversion is rethrown |
| Reads.JoinedFailurePersists | smart-hbase/smart-hbase-dao/src/main/java/com/smartitengineering/dao/impl/hbase/CommonDao.java:396-402 | once a conversion failure is met, the whole scan fails |
| Reads.ScanFailsIffConversionFails | smart-hbase/smart-hbase-dao/src/main/java/com/smartitengineering/dao/impl/hbase/CommonDao.java:374-408 | a scan fails iff some non-empty row's conversion threw |
| Reads.ScanKeepsOrder | smart-hbase/smart-hbase-dao/src/main/java/com/smartitengineering/dao/impl/hbase/CommonDao.java:371-403 | a successful scan returns exactly the entities the rows yield (a found row whose conversion produced an entity), in row order with duplicates kept |
| Reads.ScanMembers | smart-hbase/smart-hbase-dao/src/main/java/com/smartitengineering/dao/impl/hbase/CommonDao.java:371-403 | a successful scan returns no more entities than rows, and an entity is in the result iff some row yields it |
| Reads.ScanRespectsMaxRows | smart-hbase/smart-hbase-dao/src/main/java/com/smartitengineering/dao/impl/hbase/CommonDao.java:357 | a successful scan returns at most `maxRows` entities |
| Reads.GetList | smart-hbase/smart-hbase-dao/src/main/java/com/smartitengineering/dao/impl/hbase/CommonDao.java:330-340 | a compile error propagates; otherwise the result is the scan of the compiled plan, limited by `getMaxScanRows(query)` |
| Reads.GetAll | smart-hbase/smart-hbase-dao/src/main/java/com/smartitengineering/dao/impl/hbase/CommonDao.java:182-196 | the match-all scan limited by the default limit, with duplicates removed; a conversion failure propagates |
| Grouping.Tables | smart-hbase/smart-hbase-dao/src/main/java/com/smartitengineering/dao/impl/hbase/CommonDao.java:810-829 | the map's keys are distinct, and a table is a key iff some entry names it |
| Grouping.Group | smart-hbase/smart-hbase-dao/src/main/java/com/smartitengineering/dao/impl/hbase/CommonDao.java:810-830 | batch `i` is the `i`-th table in first-appearance order with that table's mutations |
| Grouping.SelectCount | smart-hbase/smart-hbase-dao/src/main/java/com/smartitengineering/dao/impl/hbase/CommonDao.java:818-828 | a table's list has exactly as many mutations as there are entries for it |
| Grouping.GroupKeepsEveryEntry | smart-hbase/smart-hbase-dao/src/main/java/com/smartitengineering/dao/impl/hbase/CommonDao.java:810-829 | the batches hold exactly as many mutations as the entries: none dropped, none duplicated |
| Grouping.GroupedSnoc | smart-hbase/smart-hbase-dao/src/main/java/com/smartitengineering/dao/impl/hbase/CommonDao.java:819-827 | one step of get-or-create-then-append keeps the map equal to the grouping |
| Grouping.GroupedIsGroup | smart-hbase/smart-hbase-dao/src/main/java/com/smartitengineering/dao/impl/hbase/CommonDao.java:830 | iterating the finished map gives `Group`'s batches in order |
| Grouping.InsertAll | smart-hbase/smart-hbase-dao/src/main/java/com/smartitengineering/dao/impl/hbase/CommonDao.java:818-828 | the inner loop leaves the map equal to the grouping of every entry so far |
| Grouping.Insert | smart-hbase/smart-hbase-dao/src/main/java/com/smartitengineering/dao/impl/hbase/CommonDao.java:819-827 | one insertion keeps the map equal to the grouping |
| Grouping.GroupSingle | smart-hbase/smart-hbase-dao/src/main/java/com/smartitengineering/dao/impl/hbase/CommonDao.java:810-829 | a single entry gives a single batch |
| WriteSpec.NextVersion | smart-hbase/smart-hbase-dao/src/main/java/com/smartitengineering/dao/impl/hbase/CommonDao.java:859-869 | a put without a version is stamped 1; otherwise the carried version plus one, wrapping from `Long.MAX_VALUE` to `Long.MIN_VALUE` |
| WriteSpec.EffectiveLock | smart-hbase/smart-hbase-dao/src/main/java/com/smartitengineering/dao/impl/hbase/CommonDao.java:342-347 | the injected lock type, or the default when none is injected |
| WriteSpec.ProbeOf | smart-hbase/smart-hbase-dao/src/main/java/com/smartitengineering/dao/impl/hbase/CommonDao.java:760-793 | an entity whose row id cannot be derived is not probed; a probe fails iff the main table is unavailable |
| WriteSpec.Verify | smart-hbase/smart-hbase-dao/src/main/java/com/smartitengineering/dao/impl/hbase/CommonDao.java:757-807 | fails iff some probed entity violates the expectation, with a failed probe counting as "exists"; the message is the save or update one |
| WriteEngine.Store.constructor | smart-hbase/smart-hbase-dao/src/main/java/com/smartitengineering/dao/impl/hbase/CommonDao.java:757-1005 | a store with the given rows and unavailable tables, and empty unlock and merge logs |
| WriteEngine.Store.Exists | smart-hbase/smart-hbase-dao/src/main/java/com/smartitengineering/dao/impl/hbase/CommonDao.java:773 | no answer iff the table is unavailable; otherwise whether the row exists |
| WriteEngine.Store.CheckAndPut | smart-hbase/smart-hbase-dao/src/main/java/com/smartitengineering/dao/impl/hbase/CommonDao.java:875 | applied iff the row's version column equals the expected value (absent when null); only then is the row stamped |
| WriteEngine.Store.CheckAndDelete | smart-hbase/smart-hbase-dao/src/main/java/com/smartitengineering/dao/impl/hbase/CommonDao.java:945 | applied iff the row's version column equals the entity's version; only then is the row removed |
| WriteEngine.Store.PutAll | smart-hbase/smart-hbase-dao/src/main/java/com/smartitengineering/dao/impl/hbase/CommonDao.java:898 | a batch put on an available table writes `BatchPut`; on an unavailable one it fails and changes nothing |
| WriteEngine.Store.DeleteAll | smart-hbase/smart-hbase-dao/src/main/java/com/smartitengineering/dao/impl/hbase/CommonDao.java:994 | a batch delete on an available table removes the rows; on an unavailable one it fails and changes nothing |
| WriteEngine.Store.Merge | smart-hbase/smart-hbase-dao/src/main/java/com/smartitengineering/dao/impl/hbase/CommonDao.java:849-851 | the merge call is logged unless the table is unavailable |
| WriteEngine.Store.UnlockAndEvict | smart-hbase/smart-hbase-dao/src/main/java/com/smartitengineering/dao/impl/hbase/CommonDao.java:905 | logs one unlock |
| WriteEngine.Probes | smart-hbase/smart-hbase-dao/src/main/java/com/smartitengineering/dao/impl/hbase/CommonDao.java:758-785 | only entities whose row id could be derived get a future |
| WriteEngine.ProbesKeepViolations | smart-hbase/smart-hbase-dao/src/main/java/com/smartitengineering/dao/impl/hbase/CommonDao.java:757-807 | skipping the entities without a future loses no violation |
| WriteEngine.VerifyAllEntitiesExists | smart-hbase/smart-hbase-dao/src/main/java/com/smartitengineering/dao/impl/hbase/CommonDao.java:757-807 | the two loops give exactly `Verify` |
| WriteEngine.ThrowIfErrors | smart-hbase/smart-hbase-dao/src/main/java/com/smartitengineering/dao/impl/hbase/CommonDao.java:736-755 | the loop gives exactly `ErrorsOutcome` |
| WriteEngine.MergeFirst | smart-hbase/smart-hbase-dao/src/main/java/com/smartitengineering/dao/impl/hbase/CommonDao.java:844-854 | the merge runs exactly when the call asks for it, merging is enabled and a service exists; an unavailable table fails it |
| WriteEngine.PutOptimistically | smart-hbase/smart-hbase-dao/src/main/java/com/smartitengineering/dao/impl/hbase/CommonDao.java:841-885 | merge, then one stamped compare-and-swap per put, then the error check: the new store and outcome are exactly the specification's |
| WriteEngine.UnlockAll | smart-hbase/smart-hbase-dao/src/main/java/com/smartitengineering/dao/impl/hbase/CommonDao.java:903-907 | appends every entity to the unlock log |
| WriteEngine.PutNonOptimistically | smart-hbase/smart-hbase-dao/src/main/java/com/smartitengineering/dao/impl/hbase/CommonDao.java:887-908 | merge and batch put, then the unlocks whatever happened: exactly the specification's |
| WriteEngine.GroupPuts | smart-hbase/smart-hbase-dao/src/main/java/com/smartitengineering/dao/impl/hbase/CommonDao.java:810-829 | an invalid entity is reported, otherwise the map is the grouping of all converted puts |
| WriteEngine.PutBatches | smart-hbase/smart-hbase-dao/src/main/java/com/smartitengineering/dao/impl/hbase/CommonDao.java:830-838 | writes the batches in map order and stops at the first failure |
| WriteEngine.Put | smart-hbase/smart-hbase-dao/src/main/java/com/smartitengineering/dao/impl/hbase/CommonDao.java:809-839 | exactly the specification's `put` |
| WriteEngine.Save | smart-hbase/smart-hbase-dao/src/main/java/com/smartitengineering/dao/impl/hbase/CommonDao.java:724-728 | exactly the specification's `save` |
| WriteEngine.Update | smart-hbase/smart-hbase-dao/src/main/java/com/smartitengineering/dao/impl/hbase/CommonDao.java:730-734 | exactly the specification's `update` |
| WriteEngine.DeleteOptimistically | smart-hbase/smart-hbase-dao/src/main/java/com/smartitengineering/dao/impl/hbase/CommonDao.java:923-959 | the nested loops give exactly `DeleteOptimisticallyFrom` |
| WriteEngine.GroupDeletes | smart-hbase/smart-hbase-dao/src/main/java/com/smartitengineering/dao/impl/hbase/CommonDao.java:962-981 | an invalid entity is reported, otherwise the map is the grouping of all converted deletes |
| WriteEngine.DeleteNonOptimistically | smart-hbase/smart-hbase-dao/src/main/java/com/smartitengineering/dao/impl/hbase/CommonDao.java:961-1005 | exactly the specification's `deleteNonOptimistically` |
| WriteEngine.Delete | smart-hbase/smart-hbase-dao/src/main/java/com/smartitengineering/dao/impl/hbase/CommonDao.java:910-921 | exactly the specification's `delete` |
| WriteLemmas.SaveCheckRule | smart-hbase/smart-hbase-dao/src/main/java/com/smartitengineering/dao/impl/hbase/CommonDao.java:757-807 | the save check passes iff every checked entity finds the main table available and its row absent |
| WriteLemmas.UpdateCheckRule | smart-hbase/smart-hbase-dao/src/main/java/com/smartitengineering/dao/impl/hbase/CommonDao.java:757-807 | the update check passes iff every checked entity's row exists, or the main table is unavailable (a failed probe reads as present) |
| WriteLemmas.UnmappedIdsAreNotChecked | smart-hbase/smart-hbase-dao/src/main/java/com/smartitengineering/dao/impl/hbase/CommonDao.java:761-785 | entities whose row id cannot be derived never fail the check |
| WriteLemmas.MessagesMembers | smart-hbase/smart-hbase-dao/src/main/java/com/smartitengineering/dao/impl/hbase/CommonDao.java:737-750 | a message is collected iff some future gave it and it is not blank; a failed future gives "Could not complete deletion!" |
| WriteLemmas.ErrorsRule | smart-hbase/smart-hbase-dao/src/main/java/com/smartitengineering/dao/impl/hbase/CommonDao.java:736-755 | the error check throws `IllegalStateException` iff some future failed or gave a non-blank message, with `Arrays.toString` of the messages |
| WriteLemmas.PutNotIllegalArgument | smart-hbase/smart-hbase-dao/src/main/java/com/smartitengineering/dao/impl/hbase/CommonDao.java:809-839 | put itself never throws `IllegalArgumentException` |
| WriteLemmas.SaveRefusesExistingRows | smart-hbase/smart-hbase-dao/src/main/java/com/smartitengineering/dao/impl/hbase/CommonDao.java:724-728 | save throws the already-saved `IllegalArgumentException` iff some checked row exists (or cannot be probed), and then nothing is written |
| WriteLemmas.UpdateRefusesMissingRows | smart-hbase/smart-hbase-dao/src/main/java/com/smartitengineering/dao/impl/hbase/CommonDao.java:730-734 | update throws the not-saved `IllegalArgumentException` iff some checked row is missing, and then nothing is written |
| WriteLemmas.DeleteRefusesMissingRows | smart-hbase/smart-hbase-dao/src/main/java/com/smartitengineering/dao/impl/hbase/CommonDao.java:910-912 | delete throws the not-saved `IllegalArgumentException` iff some checked row is missing, and then nothing is deleted |
| WriteLemmas.ExistenceBeforeValidity | smart-hbase/smart-hbase-dao/src/main/java/com/smartitengineering/dao/impl/hbase/CommonDao.java:726-727 | an invalid entity whose row exists makes save fail on existence, not on validity |
| WriteLemmas.InvalidEntityWritesNothing | smart-hbase/smart-hbase-dao/src/main/java/com/smartitengineering/dao/impl/hbase/CommonDao.java:812-815 | an invalid entity makes put throw before anything is written, merged or unlocked |
| WriteLemmas.NoMergeUnlessAsked | smart-hbase/smart-hbase-dao/src/main/java/com/smartitengineering/dao/impl/hbase/CommonDao.java:849 | batches written with `merge=false` never call the merge service |
| WriteLemmas.SaveNeverMerges | smart-hbase/smart-hbase-dao/src/main/java/com/smartitengineering/dao/impl/hbase/CommonDao.java:727 | save never calls the merge service |
| WriteLemmas.CasPutsKeepLogs | smart-hbase/smart-hbase-dao/src/main/java/com/smartitengineering/dao/impl/hbase/CommonDao.java:858-883 | the compare-and-swaps touch neither the unlock log nor the merge log |
| WriteLemmas.BatchPutKeepsLogs | smart-hbase/smart-hbase-dao/src/main/java/com/smartitengineering/dao/impl/hbase/CommonDao.java:898 | a batch put touches neither log |
| WriteLemmas.CompareAndSwapPut | smart-hbase/smart-hbase-dao/src/main/java/com/smartitengineering/dao/impl/hbase/CommonDao.java:856-884 | a compare-and-swap succeeds iff the stored version equals the carried one; success stamps the next version; failure changes nothing and reports the formatted message for the row's id and table |
| WriteLemmas.CasPutsFrame | smart-hbase/smart-hbase-dao/src/main/java/com/smartitengineering/dao/impl/hbase/CommonDao.java:858-883 | rows outside the batch keep their versions |
| WriteLemmas.CompareAndSwapDelete | smart-hbase/smart-hbase-dao/src/main/java/com/smartitengineering/dao/impl/hbase/CommonDao.java:939-954 | a checked delete on an unavailable table fails the future and changes nothing; otherwise it succeeds iff the stored version equals the entity's version, success removes the row, and a mismatch changes nothing and reports the formatted message for the row's id and table (or fails the future when the row id maps to no id) |
| WriteLemmas.CasDeletesFrame | smart-hbase/smart-hbase-dao/src/main/java/com/smartitengineering/dao/impl/hbase/CommonDao.java:939-954 | rows outside the batch of checked deletes keep their versions; the unlock log, the merge log and the set of unavailable tables are untouched |
| WriteLemmas.BatchPutRows | smart-hbase/smart-hbase-dao/src/main/java/com/smartitengineering/dao/impl/hbase/CommonDao.java:898 | every put row exists afterwards, and other rows are unchanged |
| WriteLemmas.NonOptimisticPutUnlocks | smart-hbase/smart-hbase-dao/src/main/java/com/smartitengineering/dao/impl/hbase/CommonDao.java:887-908 | after the non-optimistic puts every entity has been unlocked once per table reached: all tables on success, at least one on failure |
| WriteLemmas.OptimisticPutKeepsLocks | smart-hbase/smart-hbase-dao/src/main/java/com/smartitengineering/dao/impl/hbase/CommonDao.java:841-885 | the optimistic puts release no lock |
| WriteLemmas.NonOptimisticDeleteUnlocks | smart-hbase/smart-hbase-dao/src/main/java/com/smartitengineering/dao/impl/hbase/CommonDao.java:982-1004 | after the non-optimistic deletes every entity has been unlocked once per table reached: all tables on success, at least one on failure |
| WriteLemmas.BatchDeleteKeepsLogs | smart-hbase/smart-hbase-dao/src/main/java/com/smartitengineering/dao/impl/hbase/CommonDao.java:994 | a batch delete touches neither log |
| WriteLemmas.OptimisticDeleteAllValid | smart-hbase/smart-hbase-dao/src/main/java/com/smartitengineering/dao/impl/hbase/CommonDao.java:923-959 | with all entities valid, every delete is dispatched in order and the error check decides the outcome |
| WriteLemmas.OptimisticDeleteStopsAtInvalid | smart-hbase/smart-hbase-dao/src/main/java/com/smartitengineering/dao/impl/hbase/CommonDao.java:927-930 | the first invalid entity throws after the deletes of the entities before it were applied |
| WriteLemmas.OptimisticDeleteNotIllegalArgument | smart-hbase/smart-hbase-dao/src/main/java/com/smartitengineering/dao/impl/hbase/CommonDao.java:923-959 | the optimistic delete itself never throws `IllegalArgumentException` |
| WriteLemmas.ScenarioSave | smart-hbase/smart-hbase-dao/src/main/java/com/smartitengineering/dao/impl/hbase/CommonDao.java:724-728 | saving a new entity into an empty store stamps version 1 |
| WriteLemmas.ScenarioUpdate | smart-hbase/smart-hbase-dao/src/main/java/com/smartitengineering/dao/impl/hbase/CommonDao.java:730-734 | updating with version 1 stamps version 2 and passes the batch to the merge service |
| WriteLemmas.ScenarioStaleUpdate | smart-hbase/smart-hbase-dao/src/main/java/com/smartitengineering/dao/impl/hbase/CommonDao.java:875-879 | a stale update fails with "[Operation of row A from table entities has failed optimistically!]" and leaves version 2 in place |
| WriteLemmas.ScenarioDelete | smart-hbase/smart-hbase-dao/src/main/java/com/smartitengineering/dao/impl/hbase/CommonDao.java:923-959 | deleting with the current version removes the row and releases no lock |

## Left out

- HBase I/O, the executor and its futures, thread pools, the `ResultScanner` lifecycle, logging and injection. The store is a map from row keys to the version column. An unavailable table is one on which every operation throws. Asynchronous operations complete in dispatch order.
- The evaluation semantics of the HBase filters and comparators. Only the structure of the compiled filter tree is modelled. HBase's own merging of `addColumn`/`addFamily` into the scan's family map is also left out: the scan keeps the requests in call order.
- `Bytes` encodings. Versions are integers with Java `long` wrap-around, and values and row keys are strings.
- The internals of the converter, merge service, lock attainer and schema info provider are not part of this model. The converter is a total function from an entity and the pessimistic flag to table entries, so converter exceptions are left out. The merge service is a call log: its effect on the `Put`s is left out.
- The version a put carries is the converter's choice (`PutRow.version`); how `DiffBasedMergeService.getLatestValue` picks the version cell is not part of this model.
- `LockType.getDefault()` and `LockType` are not part of this model. The default lock type is a configuration input.
- `Text.IsWhitespace` covers the `Character.isWhitespace` characters below U+0080 only.
- `getById`, `getSingle`, `getOther` and `getOtherList` are left out. The first two are single-row glue around the modelled callbacks. The last two return unchecked-cast raw maps.
- Null unboxing is left out: a null MAX_RESULT value and a null `mergeEnabled` would throw in the source.
- An `IOException` from `getScanner` is left out of `Reads.ScanList`.
- `SolrFreeTextPersistentDao`, `CacheServiceProvider` and `QueryParameterWithNameValue` are not part of this model. Query parameters are a datatype.
- Reads.GetAll: the source builds the match-all scan in the same way as the compiler's empty-list case. The scan itself is a parameter (`rowsFor`), and only the plan handed to it is fixed.
- FilterSpec.InFilter: its own contract states only the shape of the list. The members are stated by `FilterSpec.InItems` and `FilterLemmas.InListMembers`.

Where the code does something one might not expect, the model follows the code:
- A conversion failure in `scanList` is rethrown, not dropped.
- A level with a single predicate still returns a one-member `FilterList`.
- An explicit MAX_RESULT wins even above the configured cap.
- A compound parameter whose children yield no filter puts a null into its parent's list.
- The optimistic delete and put release no locks.
- A failed existence probe counts as "exists" for save, update and delete alike.
- Validity is checked only after the existence check. On the optimistic delete path it is checked entity by entity, after the earlier entities' deletes were dispatched.
