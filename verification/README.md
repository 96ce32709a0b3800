# Verified model of the VGI DataFusion adapter

A Dafny model of the parts of the adapter whose correctness spans more than one
function: the filter compiler and its delta protocol, split packing, the scan
result cache, split revalidation, the scalar cache with its single-flight
registry, the Top-N hint, branch cycle detection, the retractable accumulator and
the cache identities. Rows, values and predicates are abstract; a worker is an
evaluator with a stated contract; concurrency is interleaved atomic steps.

| file | about |
|---|---|
| `Expressions.dfy` | expressions, three-valued logic, evaluation |
| `FilterPredicates.dfy` | pushed predicates, their wire form, shifting |
| `FilterTranslation.dfy` | what the compiler pushes, and what it means |
| `FilterBuilder.dfy` | the `Builder` that compiles in place, with rollback |
| `Pushdowns.dfy` | snapshots, deltas and merging |
| `RuntimeFilters.dfy` | the tick loop and the worker's predicate table |
| `SnapshotLoop.dfy` | the generation-checked snapshot of runtime filters |
| `Scheduling.dfy`, `IndexSums.dfy`, `Packing.dfy` | longest-first packing and its statistics |
| `ScanCapture.dfy` | the capture of a partitioned scan, and its jobs |
| `SplitRevalidation.dfy` | the validation wave over a stale split result |
| `SingleFlight.dfy` | the registry of result flights |
| `ScalarDeadlock.dfy` | any number of concurrent scalar calls |
| `ScalarFlights.dfy` | one call's part among them: its moves, and what others may do in between |
| `ScalarExchange.dfy` | one scalar call through the per-value cache |
| `TopN.dfy` | the Top-N hint, logical and physical |
| `BranchCycles.dfy` | branch resolution, cycle search and the recursive scan |
| `Accumulator.dfy` | the chunked accumulator |
| `CacheIdentity.dfy` | length-prefixed cache keys |

Check everything with `dafny verify dfyconfig.toml`.

## Main results

- What the filter compiler sends loses no row that query and runtime filters accept, as long as the columns of the query filters keep their names (`PushdownIsSound`); every query is safe exactly when all names are kept (`EveryQueryIsSafeIff`).
- The translation is exact when nothing was dropped (`TranslationIsExact`), the in-place builder leaves exactly what the translation says (`Builder.Build` and its siblings), and every column that a pushdown reads is requested along with it (`SerializedRecordsColumns`, `RuntimeRecordsColumns`, `DeltaRecordsColumns`, `MergeRecordsColumns`).
- Merging pushdowns is conjunction, associative, with an identity (`MergeIsConjunction`, `MergeAssociative`, `MergeIdentity`).
- Over every run of generation changes and ticks the worker filters by exactly the filters serialized last (`RunKeepsSync`), and a whole scan loses no row under the same condition on names (`ScanIsSound`).
- A snapshot of runtime filters is one instant's values (`SnapshotInstantExists`), short of 2^64 updates (`WrapAroundIsAccepted`).
- Packing partitions the splits and is within Graham's 4/3 - 1/(3n) of every other grouping (`GreedyIsWithinGraham`, tight by `GrahamBoundIsTight`), with exact row counts conserved (`ExactRowsAreConserved`).
- However the jobs of a scan interleave, the cache never holds a part of a result (`CacheNeverHoldsAPart`), followers hear "stored" only for whole ones (`FollowersGetTheWholeResult`), and the last completion commits on an exact condition (`LastCompletionCommitsIff`).
- A stale split scan yields the cached rows once or every split once, never a mixture (`AllPartitions`, with the exact cases in `SplitScan.Partition`).
- Single flight: one producer per key, one outcome per flight, seen by its own followers only (`ProducersAreExclusive`, `OneOutcomePerFlight`, `FollowersSeeTheirOwnFlight`).
- Concurrent scalar calls cannot deadlock and all end (`NoDeadlock`, `EveryExecutionEnds`), and a scalar call makes only moves of that protocol (`Participant`, `ScalarCall.PerValue`).
- A scalar call is the map of the worker's function, whatever mixture of hits, revalidations, producers and followers served it (`InvokeAsync`).
- Every result of a plan with faithful Top-N hints is a possible result of the plan without (`HintingRefines`); a hint for a table column is always valid exactly when it is faithful (`HintIsValidIff`).
- The recursive branch scan terminates, and succeeds exactly when a finite plan exists (`Catalogs.Scan`).
- The accumulator is a sliding window and merges losslessly (`WindowIsSuffix`, `MergingIsLossless`).
- Cache keys determine what they were made from (`PushdownCollisions`, `OrderByKeysAreUnique`, `SettingsKeysAreUnique`).

## How to read it

Code that changes state is a class whose methods are proved against functions of
the old state (`After`, `NextLoop`, `Next`, `Completed`, ...). The lemmas are about
those functions: invariants of every run, meanings preserved, round trips.

Methods named `Interfere`, and the ghost method `ScanJob.Move`, stand for everything
other sessions may do between two steps; their contracts, not their bodies, are
what callers rely on. For scalar calls, `OtherMovesDisturbNothing` proves that the
other calls' moves meet the contract of `Participant.Interfere`.

## Where the code and its documentation differ

The model follows the code.

- `src/filters.rs:117-119` says that the column names sent to a worker are those of
  its bind schema. Runtime filters carry these, but query filters are serialized
  with one schema for both roles (`src/filters.rs:752-758`), and for a catalog table `src/lib.rs:2115` passes the
  schema whose names `with_declared_schema` (`src/lib.rs:1014-1041`, called at
  `src/catalog.rs:978`) took from the catalog. Where the names differ, the worker
  reads another column or none: `QueryIsReread` says exactly which rows it keeps,
  `EveryQueryIsSafeIff` and `LoneColumnIff` exactly when none is lost, and
  `MissingNameLosesEveryRow` and `ExchangedNames` give inputs that lose rows. For a
  single query with several columns the names are sufficient but not necessary, as
  the second half of `ExchangedNames` shows.
- `src/filters.rs:155-158` says that a rejected membership cannot leave a recorded
  column behind. The column is recorded before the side batch is built
  (`src/filters.rs:163-166`), so a batch that cannot be built, because its values
  have different types, leaves the column recorded:
  `RejectedMembershipLeavesColumnIff`, with `MixedTypesLeaveColumn` as an instance.
  Constants and side batches are untouched in every failing case.
- `README.md:320-325` says that any fresh answer of a validation wave reruns every
  split. A fresh answer of the first group asked is an error
  (`src/lib.rs:4946-4950`): see `SplitRevalidation.RerunNeedsAnEarlierVote` for the
  exact condition and `FreshFirstAnswerIsAnError` for an instance.
- A follower's own request (`src/scalar.rs:1436`) is the only answer of the cached
  scalar path whose shape is not checked. `ScalarCall.fallbacksOneToOne` says that
  all such answers had one row and one column; the cached path then is the map of
  the worker's function. `ScalarCall.Assemble` gathers the right row for every input
  when the outputs are `Aligned`, `AlignedIffOneRowEach` says exactly which shapes
  are, and `ScalarCall.TwoRowFallback` is a call that succeeds with a wrong row.
- The Top-N hint is looked up in a projection by name alone, and the first field of
  that name is taken (`src/order_pushdown.rs:173-181`). The engine admits a schema
  with `a.n` and `b.n`, because the qualifiers differ: a projection of one table that
  keeps a column and gives another one a qualified alias, as in `RepeatedNamesMislead`.
  `Faithful` is the condition under which the worker is asked to order by the column
  that the sort key shows; `HintingRefines` holds under it, and `HintIsValidIff` says
  that without it some result is wrong. Names that no hint passes do not matter.
- `is_pushable` (`src/filters.rs:694-715`) accepts predicates of which a part is
  dropped (`PushableIsNotExact`). `src/lib.rs:2074-2077` reports every pushable filter
  of a worker with exact filters as `Exact`, so that nobody checks the dropped part
  again. `TranslationIsExact` is stated under `NothingDropped`.
- The error "cache producer disappeared" of an asynchronous waiter
  (`src/runtime.rs:698-700`) cannot occur, because the waiter itself keeps the channel's
  sender alive; the model has no such step.

## Model

| member | source | states |
|---|---|---|
| `Expressions.InTruthIsMembership` | src/filters.rs:659-666 | SQL `IN` is TRUE exactly when some list value compares equal |
| `FilterTranslation.FlipMeaning` | src/filters.rs:681-691 | Flipping a comparison and exchanging its operands keeps its three-valued truth |
| `FilterTranslation.TermMeaning` | src/filters.rs:452-500 | A comparison of a column and a literal, in either order, is the comparison that is pushed |
| `FilterTranslation.EqualitiesAreIn` | src/filters.rs:591-616 | A tree of ORed equalities on one column has the truth value of `IN` over the collected values |
| `FilterTranslation.OrEqualitiesMeaning` | src/filters.rs:580-666 | The membership that replaces an equality OR means the OR, NULLs included |
| `FilterTranslation.TranslationIsExact` | src/filters.rs:207-500 | When no conjunct was dropped anywhere, the pushed predicate has the original's truth value on every row and the original cannot fail |
| `FilterTranslation.TranslationIsSound` | src/filters.rs:207-500 | Whatever was dropped, a row that satisfies the original satisfies the pushed predicate |
| `FilterTranslation.PushableIsNotExact` | src/filters.rs:694-715 | Pushability alone does not give exactness: an AND may lose a side below an OR |
| `FilterTranslation.NoMemberBelowOr` | src/filters.rs:380-500 | An external membership set never ends up below an OR |
| `FilterTranslation.TupleMembersAreSound` | src/filters.rs:341-378 | A tuple `IN` implies every per-column membership that is pushed for it (a superset of it) |
| `FilterTranslation.TopPredsAreSound` | src/filters.rs:301-339 | All conjuncts pushed for a satisfied physical predicate are TRUE |
| `FilterPredicates.EncodeMeaning` | src/filters.rs:136-206 | Hoisting constants and side batches out of a predicate preserves its meaning, wherever their numbering starts |
| `FilterPredicates.EncodeReread` | src/filters.rs:503-520 | A worker with any schema evaluates a spec by the names in it: as the predicate on the row those names pick out, or not at all if one is missing |
| `FilterPredicates.KeptNamesReadRight` | src/filters.rs:503-520 | Where the columns read have the same names at the same positions, that row agrees with the table row on them |
| `FilterPredicates.EncodeUsesEachOnce` | src/filters.rs:136-206 | A spec refers to exactly its own constants and batches, each once and in order |
| `FilterPredicates.EncodeColumns` | src/filters.rs:503-520 | Each column reference carries the name of the bind column at its index |
| `FilterPredicates.EncodeInBounds` | src/filters.rs:136-178 | All references of a fresh spec are within the lists it was built with |
| `FilterPredicates.ShiftMeaning` | src/filters.rs:1121-1170 | A spec shifted behind longer constant and batch lists means what it meant before |
| `FilterPredicates.ShiftTwice` | src/filters.rs:1121-1170 | Shifting twice shifts by the sum |
| `FilterPredicates.ExtendMeaning` | src/filters.rs:842-905 | Appending constants and batches does not disturb a spec that is in bounds |
| `FilterBuilder.Builder.AddConstant` | src/filters.rs:136-139 | The slot returned is where the constant was appended |
| `FilterBuilder.Builder.Rollback` | src/filters.rs:141-153 | Truncates the three lists to the checkpoint |
| `FilterBuilder.Builder.ResolveColumn` | src/filters.rs:185-205 | Resolves by name in the local schema, names by position in the remote one, and records the column once |
| `FilterBuilder.Builder.PushMembership` | src/filters.rs:159-178 | Adds one side batch and refers to it, or changes at most the recorded columns |
| `FilterBuilder.Builder.CompareTest` | src/filters.rs:452-500 | Translates `column op literal` in either order with exactly one new constant, or adds none |
| `FilterBuilder.Builder.NullTest` | src/filters.rs:207-245 | Null tests use no constant |
| `FilterBuilder.Builder.Build` | src/filters.rs:207-245 | Result and new lists are those of the translation: on failure constants and batches are as before, on success exactly the new ones are appended |
| `FilterBuilder.Builder.BuildAnd` | src/filters.rs:452-500 | Keeps either side of an AND, with the failed side's additions undone |
| `FilterBuilder.Builder.BuildOr` | src/filters.rs:452-500 | All or nothing; an OR with a side batch below it is given up and undone |
| `FilterBuilder.Builder.BuildPhysical` | src/filters.rs:248-299 | As `Build`, for physical predicates with and without side keys |
| `FilterBuilder.Builder.PhysicalAnd` | src/filters.rs:380-450 | As `BuildAnd`, for physical predicates |
| `FilterBuilder.Builder.PhysicalOr` | src/filters.rs:380-450 | As `BuildOr`, for physical predicates |
| `FilterBuilder.Builder.StructMemberships` | src/filters.rs:341-378 | One membership per tuple field, or all three lists exactly as before |
| `FilterBuilder.Builder.BuildPhysicalTop` | src/filters.rs:301-339 | Appends the specs of all expressible conjuncts, in order |
| `FilterBuilder.ReadsOnlyTouched` | src/filters.rs:185-205 | The predicate that one expression is translated to reads only columns that were recorded for it |
| `FilterBuilder.RejectedMembershipLeavesColumnIff` | src/filters.rs:155-178 | A membership that is not pushed leaves its column recorded exactly when its values are of supported types but not all of one type |
| `FilterBuilder.MixedTypesLeaveColumn` | src/filters.rs:155-178 | A list of an integer and a string is not pushed, and its column is recorded all the same |
| `FilterBuilder.AfterGrows` | src/filters.rs:141-206 | Recorded columns, constants and batches only grow over a translation |
| `Pushdowns.Serialize` | src/filters.rs:752-774 | Query filters become the snapshot of their translations, or no pushdown if none is expressible, with the names of the schema they were given |
| `Pushdowns.CollectRuntime` | src/filters.rs:787-840 | All runtime filters share one builder, their specs in order |
| `Pushdowns.SerializePhysical` | src/filters.rs:776-812 | Runtime filters become a snapshot even when none is expressible |
| `Pushdowns.FinishDelta` | src/filters.rs:907-977 | A delta upserts ids 0..n-1 and removes the ids that are no longer used |
| `Pushdowns.Merge` | src/filters.rs:1020-1085 | Concatenates predicates, constants and batches, with the right side renumbered, and unions the columns; deltas are refused |
| `Pushdowns.MergeIsConjunction` | src/filters.rs:1020-1170 | The merged pushdown keeps a row exactly when both sides do, and all its references are in bounds |
| `Pushdowns.MergeAssociative` | src/filters.rs:1020-1085 | Merging is associative, down to numbering and first-seen column order |
| `Pushdowns.MergeIdentity` | src/filters.rs:1020-1040 | The empty pushdown is the identity of merging |
| `Pushdowns.SnapshotMeaning` | src/filters.rs:842-905 | A snapshot keeps exactly the rows on which all its predicates are TRUE |
| `Pushdowns.SnapshotIsClosed` | src/filters.rs:842-905 | All references of a snapshot are in bounds |
| `Pushdowns.QueryPredsAreSound` | src/filters.rs:752-774 | A row that satisfies the query's filters satisfies all pushed ones |
| `Pushdowns.QueryIsReread` | src/filters.rs:752-774 | Exactly the rows that a worker with any schema keeps for the query filters as they are sent |
| `Pushdowns.QueryPushdownIsSound` | src/filters.rs:752-774 | The worker keeps every row that satisfies the query filters, if each column they read has the same name at the same position in table and worker |
| `Pushdowns.EveryQueryIsSafeIff` | src/lib.rs:1014-1041 | No query loses a row exactly when table and worker name all columns alike |
| `Pushdowns.LoneColumnIff` | src/lib.rs:1014-1041 | A satisfiable filter on one column loses no row exactly when that column keeps its name |
| `Pushdowns.MissingNameLosesEveryRow` | src/lib.rs:1014-1041 | A filter on a column whose name the worker does not have loses every row |
| `Pushdowns.ExchangedNames` | src/lib.rs:1014-1041 | With two names exchanged, `a = 1` loses a row and `a = 1 OR b = 1` does not |
| `Pushdowns.RuntimePredsAreSound` | src/filters.rs:787-840 | A row that satisfies the runtime filters satisfies all pushed ones |
| `Pushdowns.PushdownIsSound` | src/filters.rs:752-1170 | End to end: the worker keeps every row that the query and the runtime filters accept, if the columns of the query filters keep their names |
| `Pushdowns.SerializedRecordsColumns` | src/filters.rs:112-205 | Every column that a query pushdown reads is among the columns it asks for |
| `Pushdowns.RuntimeRecordsColumns` | src/filters.rs:776-840 | The same for a runtime snapshot, with AND lists and tuple memberships |
| `Pushdowns.DeltaRecordsColumns` | src/filters.rs:907-977 | The same for the upserts of a delta |
| `Pushdowns.MergeRecordsColumns` | src/filters.rs:1020-1085 | Merging two such pushdowns gives one |
| `RuntimeFilters.ScanLoop.Tick` | src/lib.rs:5063-5090 | One pass of the tick loop: a new generation computes a new delta, otherwise the standing one goes out again |
| `RuntimeFilters.DeltaReplaces` | src/filters.rs:907-977 | Applied in order, a delta replaces exactly the ids it names |
| `RuntimeFilters.ResendIsIdempotent` | src/lib.rs:5080-5090 | Sending the standing delta again changes nothing |
| `RuntimeFilters.DeltaIsPositional` | src/filters.rs:907-977 | A delta's ids are 0..max(n, previous)-1, all with the delta's revision |
| `RuntimeFilters.DeltaInstalls` | src/filters.rs:907-977 | After a changed pass the worker's live join predicates mean exactly the new filters and the rest are tombstoned |
| `RuntimeFilters.PassKeepsSync` | src/lib.rs:5063-5087 | One pass keeps loop and worker in step and touches no query predicate |
| `RuntimeFilters.RunKeepsSync` | src/lib.rs:5063-5087 | Over every run the live join predicates are those serialized last, with ids from 0; revisions never fall |
| `RuntimeFilters.ChangesAreSent` | src/lib.rs:5063-5080 | Each change takes a new revision until the counter saturates, and is sent unless there is nothing to say |
| `RuntimeFilters.SaturatedDeltaIsLost` | src/lib.rs:5068-5069 | Once the revision is saturated, a worker that insists on newer revisions ignores every further delta |
| `RuntimeFilters.StartInSync` | src/lib.rs:4840-4849 | The initial snapshot, merged behind the query's filters, puts loop and worker in step |
| `RuntimeFilters.CurrentIsLastSeen` | src/lib.rs:5063-5087 | What the loop holds as current are the filters read at the last pass that saw a new generation |
| `RuntimeFilters.ScanIsSound` | src/lib.rs:4840-5087 | At every point of every scan the worker keeps each row that satisfies the query filters and the runtime filters serialized last, if the columns of the query filters keep their names |
| `SnapshotLoop.DynamicFilterGeneration` | src/lib.rs:3088-3092 | The wrapping sum of the generations |
| `SnapshotLoop.ReadFilters` | src/lib.rs:3072-3086 | The values read, filter by filter |
| `SnapshotLoop.SnapshotDynamicFilters` | src/lib.rs:3072-3086 | Returns the first attempt whose two sums agree |
| `SnapshotLoop.AcceptedIff` | src/lib.rs:3072-3092 | An attempt is accepted exactly when the updates between its passes are a multiple of 2^64 |
| `SnapshotLoop.AcceptedIsConsistent` | src/lib.rs:3072-3092 | Short of 2^64 updates, all filters held the returned values at every instant between the passes |
| `SnapshotLoop.SnapshotInstantExists` | src/lib.rs:3072-3092 | There is one instant at which all filters held the returned values |
| `SnapshotLoop.WrapAroundIsAccepted` | src/lib.rs:3088-3092 | With exactly 2^64 updates in between, a torn snapshot is accepted |
| `Scheduling.LoadsAddUp` | src/lib.rs:1898-1915 | The bins together hold exactly the total weight |
| `Scheduling.ListSchedulingBound` | src/lib.rs:1898-1915 | Lightest-bin-first: no bin exceeds total/n + (1-1/n) of the heaviest weight |
| `Scheduling.OverflowingJobIsSmall` | src/lib.rs:1898-1915 | A weight that does not fit under a cap some assignment meets is at most a third of the cap |
| `Scheduling.GrahamBound` | src/lib.rs:1898-1915 | Longest first: the heaviest bin is at most 4/3 - 1/(3n) times that of any assignment |
| `Scheduling.GrahamBoundIsTight` | src/lib.rs:1898-1915 | Two bins and weights 3, 3, 2, 2, 2 meet the 4/3 - 1/(3n) bound with equality |
| `Scheduling.NoBinStaysEmpty` | src/lib.rs:1891-1915 | With no more bins than weights, and weights of at least 1, no bin stays empty |
| `Packing.SortSorts` | src/lib.rs:1893-1896 | The order is by descending estimate, ties in plan order |
| `Packing.SortPermutes` | src/lib.rs:1893-1896 | The order lists every split once |
| `Packing.SortedWeights` | src/lib.rs:1896-1907 | Sorting by the raw estimate also sorts the clamped weights |
| `Packing.Lightest` | src/lib.rs:1901-1905 | The first bin of minimal weight |
| `Packing.FillBins` | src/lib.rs:1898-1908 | Each split goes to a bin that is lightest at that moment |
| `Packing.LoadIsGroupWeight` | src/lib.rs:1898-1908 | A bin's load is the weight of the splits collected in it |
| `Packing.BinGroupsCover` | src/lib.rs:1898-1908 | Every split is in exactly one bin |
| `Packing.PackLongestFirst` | src/lib.rs:1891-1908 | The LPT groups partition the splits and, when there are enough splits, are balanced and nonempty |
| `Packing.GreedyIsWithinListBound` | src/lib.rs:1898-1915 | The heaviest group obeys the list-scheduling bound against any other grouping |
| `Packing.GreedyIsWithinGraham` | src/lib.rs:1898-1915 | The heaviest group obeys Graham's bound against any other grouping |
| `Packing.GreedyFillsEveryGroup` | src/lib.rs:1891-1908 | No LPT group of a nonempty plan is empty |
| `Packing.GroupByRange` | src/lib.rs:1851-1865 | Groups by range index exactly when every split names a usable range; then each split is in its own range, in plan order |
| `Packing.BuildGroups` | src/lib.rs:1868-1877 | Tokens and statistics of each group are those of its splits |
| `Packing.PackSplits` | src/lib.rs:1835-1943 | The groups partition the splits; their number respects workers and target; range grouping or LPT as the plan allows |
| `Packing.SplitRowCount` | src/lib.rs:1945-1966 | Exact only if every count is present, exact and the sum fits; absent if any is missing or the sum overflows |
| `Packing.SplitByteCount` | src/lib.rs:1968-1983 | The byte total, never exact; absent if any is missing or the sum overflows |
| `Packing.ExactRowsAreConserved` | src/lib.rs:1910-1966 | The plan's row count is exact if and only if every group's is and they fit, and then it is their sum |
| `Packing.TokensAreConserved` | src/lib.rs:1868-1925 | Redeeming group after group redeems every token of the plan exactly once |
| `ScanCapture.CompletedControlIff` | src/lib.rs:3128-3148 | A completed result has a policy exactly when some partition scanned and all that did report that policy |
| `ScanCapture.ScanCacheCapture.Abort` | src/lib.rs:3605-3630 | Closes an open capture, empties it and tells followers "aborted"; a closed one is left alone |
| `ScanCapture.ScanCacheCapture.Revalidate` | src/lib.rs:3639-3651 | Closes an open capture as committed without storing anything |
| `ScanCapture.ScanCacheCapture.DiscardUnstarted` | src/lib.rs:3655-3665 | Closes a capture that no partition has started |
| `ScanCapture.ScanCacheCapture.Start` | src/lib.rs:3667-3690 | Marks the partition started and opens the disk capture once |
| `ScanCapture.ScanCacheCapture.PushBatch` | src/lib.rs:3695-3728 | Appends to both tiers' captures; a failed write drops the disk capture, the entry cap the memory capture |
| `ScanCapture.ScanCacheCapture.RefuseCompleted` | src/lib.rs:3738-3755 | A completed result without a policy also revokes the cached entry |
| `ScanCapture.ScanCacheCapture.Complete` | src/lib.rs:3757-3895 | Records the first outcome of a partition; the last one decides about the whole result |
| `ScanCapture.ScanCacheCapture.CommitDisk` | src/lib.rs:3809-3848 | The disk tier's commit, reaped again when it expired meanwhile |
| `ScanCapture.ScanCacheCapture.Store` | src/lib.rs:3803-3895 | Stores in each tier that takes the result; committed if one did, else refused |
| `ScanCapture.LastCompletionCommitsIff` | src/lib.rs:3757-3895 | The last completion commits exactly when the policies agree, freshness is granted and a tier takes the result |
| `ScanCapture.ScanJob.DeliverNext` | src/lib.rs:5133-5205 | One turn of the job loop: cut at the limit, push, send, and abandon at the limit or when the consumer left |
| `ScanCapture.ScanJob.Run` | src/lib.rs:5060-5212 | A job sends the rows up to the limit, and completes its partition only after the whole stream and below the limit; all its moves are legal |
| `ScanCapture.RunIsSound` | src/lib.rs:3605-3930 | The capture invariant holds over every interleaving of all jobs |
| `ScanCapture.VerdictIsFinal` | src/lib.rs:3605-3930 | Aborted and committed are final: verdict, entries and what followers hear never change again |
| `ScanCapture.FollowersGetTheWholeResult` | src/lib.rs:3869-3895 | "Stored" is told only for the whole agreed result or an entry that was there before |
| `ScanCapture.CacheNeverHoldsAPart` | src/lib.rs:3605-3930 | At any time each tier holds what it held before, nothing, or the whole result |
| `SplitRevalidation.SplitScan.ValidationWave` | src/lib.rs:4887-4938 | Asks group by group while all agree; tells unanimity, rerun and failure apart, and counts the clean votes |
| `SplitRevalidation.SplitScan.Replay` | src/lib.rs:4952-4990 | On a granted refresh the cached rows go out once |
| `SplitRevalidation.SplitScan.Rerun` | src/lib.rs:4992-5035 | Removes the entry and redeems all tokens of all groups in order |
| `SplitRevalidation.SplitScan.Partition` | src/lib.rs:4807-5035 | One partition's part, in four exhaustive cases, with the exact condition for success in each |
| `SplitRevalidation.WaveCases` | src/lib.rs:4887-4950 | The wave's verdict in terms of the replies alone |
| `SplitRevalidation.RerunNeedsAnEarlierVote` | src/lib.rs:4919-4950 | A group that breaks the vote leads to a rerun exactly when some group voted before it |
| `SplitRevalidation.FreshFirstAnswerIsAnError` | src/lib.rs:4946-4950 | A fresh answer of the first group is an error, not a rerun |
| `SplitRevalidation.AllPartitions` | src/lib.rs:4807-5035 | When all partitions succeed, the consumer has the cached rows once, or every token's rows once, or nothing for a plan without groups |
| `SingleFlight.StepKeepsInv` | src/runtime.rs:637-801 | Every atomic step keeps the registry invariant |
| `SingleFlight.RunKeepsInv` | src/runtime.rs:637-801 | The invariant holds over all interleavings: exactly the unfinished flights are registered, one per key |
| `SingleFlight.ProducersAreExclusive` | src/runtime.rs:637-657 | A producer starts for a key exactly when no other is unfinished; a follower follows that one |
| `SingleFlight.OneOutcomePerFlight` | src/runtime.rs:660-680 | Whenever and on whichever channel a flight's outcome is seen, it is the same |
| `SingleFlight.FirstFinishDecides` | src/runtime.rs:759-801 | Only the first finish or drop of a flight has an effect |
| `SingleFlight.LateFinishEvictsNothingElse` | src/runtime.rs:660-680 | Finishing takes away the flight's own registration and no other |
| `SingleFlight.SeenFlightsAreGone` | src/runtime.rs:660-680 | Once an outcome can be seen, nobody joins that flight any more |
| `SingleFlight.FollowersSeeTheirOwnFlight` | src/runtime.rs:693-750 | A follower's answer is its own flight's outcome or its own timeout |
| `SingleFlight.ResultFlightRegistry.Acquire` | src/runtime.rs:637-657 | Follows the registered flight or registers a new one |
| `SingleFlight.ResultFlightRegistry.Finish` | src/runtime.rs:767-781 | Runs the four steps of finishing; a second finish does nothing |
| `SingleFlight.ResultFlightRegistry.Leave` | src/runtime.rs:660-674 | Removes the registration only if it is the flight's own |
| `SingleFlight.ResultFlightRegistry.Poll` | src/runtime.rs:693-750 | An outcome that is there wins over an expired deadline |
| `ScalarDeadlock.StepKeepsSound` | src/scalar.rs:1176-1437 | Every step of every call keeps: a flight is owed by exactly its owner until published, and a waiting call owes none |
| `ScalarDeadlock.NobodyWaitsForAWaiter` | src/scalar.rs:1413-1437 | The call that is waited for is itself not waiting |
| `ScalarDeadlock.OnlyBlockedCallsStop` | src/scalar.rs:1176-1437 | A call can go on exactly when it has not returned and is not blocked |
| `ScalarDeadlock.NoDeadlock` | src/scalar.rs:1176-1437 | While some call has not returned, some call can go on without failing or timing out |
| `ScalarDeadlock.EveryMoveUsesWork` | src/scalar.rs:1176-1437 | Every step decreases the work that is left |
| `ScalarDeadlock.EveryExecutionEnds` | src/scalar.rs:1176-1437 | Under every schedule the calls take a bounded number of steps, and stop only when all have returned |
| `ScalarFlights.OtherMovesDisturbNothing` | src/scalar.rs:1176-1437 | A move of another call leaves this call and the flights it owes as they were |
| `ScalarFlights.MoveKeepsJoined` | src/scalar.rs:1176-1437 | No move of this call but finishing ends a flight that it owes |
| `ScalarFlights.Participant.Claim` | src/scalar.rs:1176-1190 | A legal claim in the running system: this call owes the new flight or follows the registered one |
| `ScalarFlights.Participant.Finish` | src/runtime.rs:660-680 | Four legal moves with others in between publish this outcome and end this flight alone |
| `ScalarFlights.Participant.StopProducing` | src/scalar.rs:1413-1416 | A call may begin to wait only when it owes nothing |
| `ScalarFlights.Participant.Collect` | src/scalar.rs:1416-1424 | The outcome of the flight that is followed, or a timeout |
| `ScalarFlights.Participant.Return` | src/scalar.rs:1451-1461 | A call returns only when it owes nothing |
| `ScalarExchange.CollectUnique` | src/scalar.rs:1101-1117 | Distinct rows in first-seen order, and for each row where it went |
| `ScalarExchange.DeduplicateScalarInput` | src/scalar.rs:892-932 | Drops repeated rows, and reports nothing to drop exactly when there are none |
| `ScalarExchange.DedupKeepsAllIffDistinct` | src/scalar.rs:892-932 | As many distinct rows as rows exactly when all are distinct |
| `ScalarExchange.GatherIsMap` | src/scalar.rs:813-815 | Computing each distinct row once and gathering is computing every row |
| `ScalarExchange.OneRowEachAligns` | src/scalar.rs:1439-1455 | Concatenating one-row outputs puts output i at row i |
| `ScalarExchange.AlignedIffOneRowEach` | src/scalar.rs:1434-1455 | Gathering by output number is right exactly when every output but the last has one row and the last has some |
| `ScalarExchange.MisshapenFallbackShiftsRows` | src/scalar.rs:1434-1455 | An answer of two rows shifts the outputs behind it |
| `ScalarExchange.AlignedRows` | src/scalar.rs:1439-1461 | Of aligned outputs, the row taken for output i is the first value of output i |
| `ScalarExchange.ScalarCall.TwoRowFallback` | src/scalar.rs:1434-1461 | After an answer of two rows the assembly succeeds with a wrong second row |
| `ScalarExchange.Gather` | src/scalar.rs:1439-1461 | Concatenates the outputs and takes the requested rows, or fails on a missing column or row |
| `ScalarExchange.ScalarCall.LookupAll` | src/scalar.rs:1120-1137 | A usable cached row is the function's value |
| `ScalarExchange.ScalarCall.ClaimMisses` | src/scalar.rs:1176-1190 | Exactly the misses are claimed, each as producer or follower, by legal moves; the producer flights are the ones owed |
| `ScalarExchange.ScalarCall.Settle` | src/scalar.rs:1203-1314 | The decision table of one revalidation: which row is used, whether followers hear "stored", and whether the entry is replaced or removed |
| `ScalarExchange.ScalarCall.KeepStale` | src/scalar.rs:1239-1275 | A confirmed stale row is used and its followers told "stored", or revoked and removed, or found not to be one row |
| `ScalarExchange.ScalarCall.Replace` | src/scalar.rs:1277-1306 | A new row replaces the stale one, or only removes it |
| `ScalarExchange.ScalarCall.RevalidateAll` | src/scalar.rs:1193-1314 | Finishes every producer that had a stale entry |
| `ScalarExchange.ScalarCall.ProduceAll` | src/scalar.rs:1316-1412 | At most one request, for all other producers, and none without them; its shape is checked; afterwards this call owes no flight |
| `ScalarExchange.ScalarCall.StoreProduced` | src/scalar.rs:1351-1400 | Followers hear "stored" exactly for the first 256 rows that policy admits |
| `ScalarExchange.ScalarCall.FollowOne` | src/scalar.rs:1416-1436 | The stored row, or a request of its own whose shape is not looked at |
| `ScalarExchange.ScalarCall.FollowAll` | src/scalar.rs:1413-1437 | Waits only while owing no flight |
| `ScalarExchange.ScalarCall.DropClaims` | src/runtime.rs:784-801 | On any error, exactly the unfinished flights are aborted as dropped, by legal moves |
| `ScalarExchange.ScalarCall.Assemble` | src/scalar.rs:1439-1461 | Succeeds exactly when all outputs are known and long enough; row by row the first value of the right output where the outputs are aligned, and the map of the function where all are right |
| `ScalarExchange.ScalarCall.PerValue` | src/scalar.rs:1090-1461 | The cached path keeps the cache right, makes only legal moves and returns owing no flight; its answer is the map of the function unless a follower's own request was answered with another shape |
| `ScalarExchange.ScalarCall.FirstCall` | src/scalar.rs:1025-1085 | Before the opt-in one request is made, its answer passes through, and at most 256 rows of the input are stored, each once |
| `ScalarExchange.ScalarCall.RunScalarExchange` | src/scalar.rs:960-1461 | On every path a one-to-one answer is the map of the function over the input |
| `ScalarExchange.ScalarCall.Spread` | src/scalar.rs:798-821 | Accepts exactly one-column answers of the right length, and gathers or broadcasts them |
| `ScalarExchange.ScalarCall.InvokeAsync` | src/scalar.rs:735-821 | The whole call is the map of the function over the rows, also when constants are broadcast or rows deduplicated |
| `TopN.TopOfKeptIsTop` | src/order_pushdown.rs:101-143 | If every dropped row has k kept rows before it, a top k of the kept rows is one of all rows |
| `TopN.DroppingNeedsTheFullLimit` | src/lib.rs:1681-1685 | Dropping a row is safe only if k kept rows come before it, with k the full limit |
| `TopN.DroppedIsCovered` | src/lib.rs:1681-1685 | What a split may drop under the full limit is covered by what it keeps |
| `TopN.ScanPrunes` | src/order_pushdown.rs:148-163 | A hinted scan drops only rows that, in the worker's order, are covered by as many kept ones as the limit says |
| `TopN.ProjectPrunes` | src/order_pushdown.rs:172-190 | Projecting carries the pruning over |
| `TopN.ChainPrunes` | src/order_pushdown.rs:146-213 | Along every hintable chain of scan, filter, projection, repartition and alias, whatever the columns are called |
| `TopN.HintArrives` | src/order_pushdown.rs:146-213 | The hint reaches the scan with the direction of the sort, and with its limit exactly when nothing filters on the way |
| `TopN.SourceCells` | src/order_pushdown.rs:165-190 | A traced output position shows its remote column in every row |
| `TopN.HintedSortIsValid` | src/order_pushdown.rs:101-143 | Sort and fetch over a faithfully hinted input is a valid Top-N of the original input |
| `TopN.HintingRefines` | src/order_pushdown.rs:101-213 | The rewrite of a whole plan whose hints are faithful only allows results that the original allows |
| `TopN.DistinctNamesAreFaithful` | src/order_pushdown.rs:172-186 | Distinct names along the chain make a hint faithful |
| `TopN.UnfaithfulHintMisleads` | src/order_pushdown.rs:172-186 | Where a limit reaches the scan and the hint names another column than the sort key shows, some rows and some legal answer give a result the original cannot |
| `TopN.HintIsValidIff` | src/order_pushdown.rs:101-213 | For a sort key that is a table column, a hint is valid over all rows and answers exactly when it is faithful |
| `TopN.RepeatedNamesMislead` | src/order_pushdown.rs:172-186 | Two projected columns `a.n` and `b.n`: the hint orders by the wrong one, and some result is invalid |
| `TopN.UnhintedIsComplete` | src/lib.rs:1681-1685 | Without a hint the worker may leave nothing out |
| `TopN.PhysicalInputUnchanged` | src/order_pushdown.rs:310-354 | The physical rule takes up only a hint that the scan was planned with |
| `TopN.PhysicalRuleKeepsHints` | src/order_pushdown.rs:221-276 | The physical rule never changes a plan's hints |
| `BranchCycles.Search.Reaches` | src/catalog.rs:1044-1071 | The search extends the path by a real chain when it finds the target, and otherwise leaves the path alone with all it saw closed |
| `BranchCycles.Search.AnyReaches` | src/catalog.rs:1061-1067 | The same over the branches of one table |
| `BranchCycles.SourceCycle` | src/catalog.rs:1043-1081 | A cycle is reported exactly when the source leads back to this table, and it is a real one |
| `BranchCycles.CyclesAreUnscannable` | src/catalog.rs:1043-1081 | A table that one of its branches leads back to has no finite plan |
| `BranchCycles.UnfoldingIsUnique` | src/catalog.rs:1440-1516 | A provider has at most one plan |
| `BranchCycles.ReentryIsACycle` | src/catalog.rs:1448-1459 | A branch that leads back to any table on the scan stack is caught by the recheck |
| `BranchCycles.ConcurrentBindsCanCloseACycle` | src/catalog.rs:1448-1459 | Two tables that name each other can both pass the bind-time check |
| `BranchCycles.Catalogs.BindSource` | src/catalog.rs:1128-1143 | Refuses a source exactly when it leads back to this table |
| `BranchCycles.Catalogs.MultiBranches` | src/catalog.rs:1146-1256 | Set once, and always what the worker declares |
| `BranchCycles.Catalogs.Scan` | src/catalog.rs:1440-1516 | Terminates although other sessions resolve branches meanwhile, and succeeds exactly when a finite plan exists, with that plan |
| `BranchCycles.Catalogs.ScanBranches` | src/catalog.rs:1440-1516 | The same for a table whose branches are resolved |
| `Accumulator.VgiAccumulator.UpdateBatch` | src/aggregate.rs:596-633 | Appends each argument's rows to its column |
| `Accumulator.VgiAccumulator.Collected` | src/aggregate.rs:614-628 | One column per declared argument |
| `Accumulator.VgiAccumulator.State` | src/aggregate.rs:700-714 | One list per argument with every row held |
| `Accumulator.VgiAccumulator.MergeBatch` | src/aggregate.rs:635-665 | Appends the rows of all partial states, skipping NULL states |
| `Accumulator.VgiAccumulator.RetractBatch` | src/aggregate.rs:667-694 | Drops exactly the oldest rows, with both error cases and what each leaves behind |
| `Accumulator.DropFront` | src/aggregate.rs:677-692 | Chunk by chunk, the rows dropped are a prefix |
| `Accumulator.WindowIsSuffix` | src/aggregate.rs:596-694 | After any legal updates and retractions every column holds the pushed rows minus the retracted prefix |
| `Accumulator.MergingIsLossless` | src/aggregate.rs:614-665 | However partial states are merged, the result is the concatenation of all inputs |
| `CacheIdentity.AppendIdentityPart` | src/filters.rs:747-750 | Appends the length and the bytes |
| `CacheIdentity.PartsRoundTrip` | src/filters.rs:747-750 | Length-prefixed parts can be decoded back |
| `CacheIdentity.CacheIdentity` | src/filters.rs:733-745 | The bare blob without join keys, the tagged parts with them |
| `CacheIdentity.PushdownCollisions` | src/filters.rs:733-750 | Two pushdowns share a key exactly when they are equal or a bare blob imitates the tagged form |
| `CacheIdentity.PushdownKeysAreUnique` | src/filters.rs:733-750 | Blobs that do not begin with the tag never collide |
| `CacheIdentity.OrderByRoundTrip` | src/lib.rs:572-593 | An encoded ordering hint can be decoded back |
| `CacheIdentity.OrderByKeysAreUnique` | src/lib.rs:572-593 | Two hints share a key exactly when they are equal |
| `CacheIdentity.SessionSettingsIdentity` | src/runtime.rs:499-532 | The parts of the included settings, in order |
| `CacheIdentity.SettingsKeysAreUnique` | src/runtime.rs:499-532 | Sessions share a settings key exactly when the settings that can reach the worker are the same |

## Left out

- Arrow IPC bytes, JSON text, RPC, HTTP, OAuth, connection pools and threads: values and atomic steps instead.
- The internals of the memory and disk caches of `vgi_client`, freshness arithmetic and digests: not part of this repository's sources; tiers are single entries or maps, freshness and admission are parameters, digests are the rows themselves.
- DataFusion's optimizer and operators other than sort, filter, projection, repartition and alias.
- The choice of follower, replay or probe per partition (`src/lib.rs:5633-5752`): each partition decides alone, so nothing about the whole plan follows from it.
- Diagnostics, profiling, settings parsing, sampling, table functions and table inputs, protocol parsing: single-branch facts and projections.
- `src/table_input_stream.rs`: its emit-at-most-limit loop is simple; the scan job's is in `ScanJob`.
- Events, metrics and volatility mapping.
- Packing.FillBins: does not model the overflow of 64-bit weight sums; sums are unbounded.
- TopN.HintingRefines: does not model the order of the rows in a sorted result, only which rows it holds; the final order is made by the local sort, which the rewrite does not touch.
- TopN.HintIsValidIff: does not decide hints for a sort key that is computed but shares its name with a table column; whether these mislead depends on the computation. `Faithful` rules them out.
- TopN.ScanPrunes: treats filters inside a scan as applied exactly; an inexact filter is rechecked above the scan, where `Filter` models it.
- Pushdowns.QueryPushdownIsSound: is one way only for a filter over several columns; an exact condition would depend on the values the filter compares with (`ExchangedNames`).
- SplitRevalidation.AllPartitions: does not model a LIMIT, and runs the partitions one after another; partitions other than the first touch nothing.
- ScanCapture.ScanJob.Run: models a cold scan; a job that serves a stale entry instead is the move `ServeCached` of the run-level theorems.
- ScanCapture.ScanCacheCapture.Store: does not model eviction by the cache after the store, nor the stored policy.
- BranchCycles.Catalogs.MultiBranches: reports every failure to resolve a table other than a cycle as `Unresolvable`; `AT` clauses and branch filters are left out.
- ScalarFlights.Participant.Collect: does not model how long a wait lasts; a wait that nobody answers in time ends as a timeout.
- ScalarDeadlock.EveryExecutionEnds: lets a call finish its flights in any order and fail anywhere, and leaves out flights of scans, whose keys are disjoint from scalar keys.
- SnapshotLoop.SnapshotDynamicFilters: takes the attempts as a finite list; the loop itself need not end while filters keep changing.
- RuntimeFilters.ScanLoop.Tick: assumes a worker that applies a delta's updates in order, with or without insisting on newer revisions.
