# Verified model of the admin toolkit's stateful core

This project models, in Dafny, the parts of the admin toolkit whose correctness depends on more than one
function: protocols, whole runs, parse and print round trips, and sums that must agree. Each module stands
for one component and states what its code promises, for every input, every run or every interleaving.
`dafny verify dfyconfig.toml` checks all of it.

## What is modelled

**Issue tracking.** `TrackingSchema` holds the tables and a small automaton for one issue key. `Tracking` is
the row-at-a-time SQLite ingest, `SqlTracking` the batched SQL ingest as whole-table statements; both are
proved against the automaton, and against each other. `IssueHistory` says what any sequence of ingests
amounts to. `CompareRegistry` reads the tables back.

**Log compression.** `LogTemplate` has the placeholder scan and the renderer; `LogNormalize` the fifteen
passes over a shared counter table, with each regular expression an arbitrary function that returns disjoint
matches; `LogLossless` follows the passes with the template they build and says exactly when a block comes
back; `LogLimits` has the blocks that do not. `LogMarkdown` prints and parses the document line by line,
`LogDedup` splits and groups (with `KeyedSort` for Python's stable sort), and `LogRoundTrip` puts it together.

**Caches and budgets.** `Runs` is the step framework: a lock-protected region is one step, a run is any
interleaving. Its instances are `SdkCache`, `ResponseCache`, `UsageScan` and `BackgroundBudget`, and, below,
`ProductAnalytics` and `HeadlessService`. The three caches differ in what they guarantee: the SDK cache keeps
single flight always, the response cache as long as nobody falls through, and the usage scan loses wake-ups
when its map is cleared during a scan.

**Sessions, queues and progress.** `HeadlessService` follows a message from `submit` through the scheduled
callback and the queue of one to the task, and says who may do what to a session. `ProductAnalytics` has the
opt-out epochs: what may be sent, what is accepted, and what becomes of every accepted event. `Progress` is the
bounded event log with cursors.

**Trees, numbers and logs.** `DirTree` and `MountOverlay` (the directory scan and the `df` overlay), `Zipf`
(the demo-data allocator, over exact reals), `LogParse` (the error extractor) and `GitAdoption` with `Tally`
(paging, month ranges and the adoption aggregate).

## Where the code and its description differ

The model follows the code; each difference is stated as a lemma.

- `_cache_get` says all waiters of a failed load get its error. The first waiter takes the error out of the
  table, and clearing the cache empties it. A waiter raises a given error iff in between no other waiter
  looked, no other load failed and nobody cleared the cache (`ResponseCache.RaisesIff`, `FailureReachesIff`,
  with a run in `ClearLosesError`), so the second of two waiters never does (`SecondNeverRaises`, with a run in
  `SecondWaiterGetsNoError`), and after a later success an error is raised iff it was still untaken and not
  cleared (`StaleErrorIff`, with a run in `OldErrorAfterSuccess`).
- The error extractor means to show up to ten lines before an error. Its `continue` belongs to the recording
  branch alone, so the buffer keeps sliding while a window collects, and the lines shown end at the window's
  end (`LogParse.WindowContents`); the intended shape appears iff the log ends at the error line
  (`LogParse.EndsAtErrorIff`). The branch that restarts a window is taken exactly at the errors too soon after
  the window's error line (`RestartTakenIff`) and appends each twice, so a window holds the hundred lines from
  its error line iff none of the next 98 is one (`HundredLinesIff`). An error that comes later than that
  replaces the open window, which is then never recorded (`ReplacedIsLost`, `RecordedIffNotReplaced`).
- `zipf_distribution` says it sums exactly to the total. With a cap it does iff the deficit fits into four
  places per bucket (`Zipf.HandOut`), and the shuffle keeps a sum of positive counts iff the bucket count is
  coprime to the multiplier (`Zipf.ShuffleIsPermutationIff`, `SharedSlotLoses`).
- The compressor says its output rebuilds the log exactly. With at most 9999 families and no template
  terminator inside a template it does iff every block comes back (`LogRoundTrip.LogRoundTrips`). Conditions on
  the log that suffice: no capture of an earlier pass's token, no placeholder in the text, no empty last line
  of a block, no terminator lines (`SafeLogRoundTrips`); for a log without `<` the first and the third are
  also necessary (`PlainLogRoundTripsIff`), and, unless the log forges headings or other lines of the document,
  so are the bound on families and the absence of terminators (`UnforgedLogRoundTripsIff`).
- A Headless session whose task has ended can report pending, and does so until it is stopped: iff the idle
  timeout raced with a follow-up, or a crash recorded its outcome inside the `submit`
  (`HeadlessService.EndedPendingIff`, `PendingForever`, with runs in `IdleRaceLosesMessage` and
  `CrashInsideSubmit`). One message can still be sent after a stop, iff its test of `stopped` came before
  (`AtMostOneAfterStop`, with a run in `SentAfterStop`). The limit of 8 depends on SDK calls starting only while
  a session is live (`LateSdkCallMakesNine`).
- Clearing the shared usage map during a scan strands its waiters, as does an exception outside `Exception` in
  the owner, and nothing else does (`UsageScan.OnlyClearLoses`, `LostForever`, with runs in `ClearStrandsWaiter`
  and `DeathStrandsWaiter`).

## Model

| member | source | states |
|---|---|---|
| `TrackingSchema.KeysSnoc` | _archive/python-lib/tracking.py:956-967 | the sets of finding keys and entities seen this run grow by exactly the keys of each valid finding; invalid findings add nothing |
| `TrackingSchema.CoverageMeans` | _archive/python-lib/tracking.py:1044-1054 | a run's coverage is complete iff every section is a success or has no status, and failed iff some section is an error |
| `TrackingSchema.CompleteNeedNotBeSafe` | _archive/python-lib/tracking.py:1044-1066 | complete coverage is not enough to resolve: of a complete run a campaign is safe iff each of its sections is there with a status of its own |
| `Tracking.DetectRowMeaning` | _archive/python-lib/tracking.py:982-1037 | one finding moves only its own issue: inserted open, reopened as regressed with its resolution columns cleared and the counter raised, or refreshed; primary keys stay unique and kept |
| `Tracking.DetectRowsMeaning` | _archive/python-lib/tracking.py:955-1037 | a run's findings in order, duplicates and invalid ones included, take every issue through the same automaton |
| `Tracking.ResolveRowsMeaning` | _archive/python-lib/tracking.py:1076-1103 | the resolve loop resolves exactly the listed issues whose key has no finding this run, with the reason by entity, and nothing else |
| `Tracking.IngestRowsMeaning` | _archive/python-lib/tracking.py:955-1103 | whatever order the SELECT returns rows in, the row-at-a-time step takes each issue through one step of the automaton and keeps primary keys |
| `Tracking.TrackingDb.UpsertUsers` | _archive/python-lib/tracking.py:687-709 | known_users after the loop: first sighting kept, last sighting and COALESCE columns updated, other instances untouched |
| `Tracking.TrackingDb.UpsertProjects` | _archive/python-lib/tracking.py:711-733 | known_projects after the loop, likewise |
| `Tracking.TrackingDb.RecordFinding` | _archive/python-lib/tracking.py:974-1037 | the issue row, the finding row and the generated ids after one finding |
| `Tracking.TrackingDb.RecordFindings` | _archive/python-lib/tracking.py:955-1037 | the findings loop leaves the issues and findings tables of the specification and collects this run's keys and entities |
| `Tracking.TrackingDb.SelectOpen` | _archive/python-lib/tracking.py:1076-1085 | the listing holds every open or regressed issue of the instance in a safe campaign once, and no other |
| `Tracking.TrackingDb.AutoResolve` | _archive/python-lib/tracking.py:1074-1103 | the sweep over that listing |
| `Tracking.TrackingDb.UpdateIssues` | _archive/python-lib/tracking.py:955-1103 | steps 7 and 9 together: every issue and finding is where the automaton puts it |
| `Tracking.TrackingDb.IngestRun` | _archive/python-lib/tracking.py:556-1105 | one ingest keeps all four tables equal to the history of ingests, extended by this run, and sets the run's coverage |
| `IssueHistory.DetectAllIsLastFinding` | _archive/python-lib/tracking.py:958-1037 | several findings of one issue in one run act as one detection by the last of them |
| `IssueHistory.RunIsOneEvent` | _archive/python-lib/tracking.py:955-1103 | seen from one issue, a run either detects it, resolves it, or changes nothing |
| `IssueHistory.IssueIsItsHistory` | _archive/python-lib/tracking.py:955-1103 | after any sequence of ingests: first and last detected run are the first and last finding runs; resolved iff a later run of the instance recorded a success for every required section without a finding, resolved_run the first such; times_regressed counts finding runs with such a run since the finding before; reason and columns of the last finding |
| `IssueHistory.RunResolvesIff` | _archive/python-lib/tracking.py:1056-1103 | one run resolves an unresolved issue of its instance that none of its findings names iff every section its campaign requires is recorded as a success, with this run and time, and with condition_cleared iff a finding of any campaign names the entity; otherwise the issue is unchanged |
| `IssueHistory.HitsMeans` | _archive/python-lib/tracking.py:956-967 | a run finds an issue iff one of its findings with no empty campaign, entity key or owner has the issue's campaign, type and key |
| `IssueHistory.DescribesIsExact` | _archive/python-lib/tracking.py:955-1103 | these statements determine the whole record |
| `IssueHistory.OtherInstancesUntouched` | _archive/python-lib/tracking.py:955-1103 | a run of one instance never changes another instance's issues |
| `IssueHistory.EntityShowsLastGiven` | _archive/python-lib/tracking.py:687-733 | a known user or project exists iff some roster named it; its flag is the last one given, and each column shows the last value given that was not NULL |
| `IssueHistory.FindingRowsAreFirst` | _archive/python-lib/tracking.py:968-980 | after any sequence of ingests the findings table has a row exactly for each key of a run that a finding of the run counts for, with the columns of the first such finding |
| `SqlTracking.TouchThenInsert` | _archive/python-lib/sql_tracking.py:1203-1239 | UPDATE with CASE columns followed by INSERT where not exists is one detection of the automaton |
| `SqlTracking.LifecycleMeaning` | _archive/python-lib/sql_tracking.py:1189-1242 | the statements of call 3 executed in order are the run's findings in order |
| `SqlTracking.InvalidFindingsIgnored` | _archive/python-lib/sql_tracking.py:1153-1163 | skipping invalid findings beforehand changes nothing |
| `SqlTracking.ResolveMeaning` | _archive/python-lib/sql_tracking.py:1257-1304 | the two set-based resolves, or the one of a run without findings, are the coverage-gated sweep |
| `SqlTracking.IngestBatchMeaning` | _archive/python-lib/sql_tracking.py:1189-1304 | calls 3 and 4 take every issue through one step of the automaton |
| `SqlTracking.BatchEqualsRows` | _archive/python-lib/sql_tracking.py:1149-1304 | for every table, run and listing order the batched and the row-at-a-time ingest leave the same issues, generated ids of new rows aside |
| `SqlTracking.FindingsMeaning` | _archive/python-lib/sql_tracking.py:1165-1184 | INSERT where not exists leaves the findings table that INSERT OR IGNORE leaves |
| `SqlTracking.FindingIds` | _archive/python-lib/sql_tracking.py:1165-1184 | the finding rows inserted get ids of their own, above those in use; old rows keep theirs |
| `SqlTracking.EntitiesMeaning` | _archive/python-lib/sql_tracking.py:863-911 | UPDATE then INSERT leaves the known entities that the upsert leaves |
| `SqlTracking.SqlTrackingDb.NextId` | _archive/python-lib/sql_tracking.py:148-154 | the next id is above every id in use, and is one or one more than one of them |
| `SqlTracking.SqlTrackingDb.CollectFindings` | _archive/python-lib/sql_tracking.py:1149-1163 | the loop that picks the valid findings and the keys and entities seen |
| `SqlTracking.SqlTrackingDb.WriteLifecycleStmts` | _archive/python-lib/sql_tracking.py:1189-1239 | the loop that writes the statements of call 3 |
| `SqlTracking.SqlTrackingDb.WriteEntityStmts` | _archive/python-lib/sql_tracking.py:863-911 | the loop that writes the known-entity statements |
| `SqlTracking.SqlTrackingDb.Execute` | _archive/python-lib/sql_tracking.py:1241-1242 | executing statements in order on the issues table |
| `SqlTracking.SqlTrackingDb.ExecuteBulk` | _archive/python-lib/sql_tracking.py:1186-1187 | executing call 2 on the known-entity and findings tables |
| `SqlTracking.SqlTrackingDb.BulkInserts` | _archive/python-lib/sql_tracking.py:863-1187 | call 2 leaves the users, projects and findings of the specification |
| `SqlTracking.SqlTrackingDb.UpdateIssues` | _archive/python-lib/sql_tracking.py:1189-1304 | calls 3 and 4 leave the issues of the specification |
| `SqlTracking.SqlTrackingDb.IngestRun` | _archive/python-lib/sql_tracking.py:735-1305 | the batched ingest promises exactly what the row-at-a-time one promises |
| `CompareRegistry.SpanIsFirstToLastSighting` | _archive/python-lib/tracking.py:687-733 | a known entity's first and last seen run are its first and last sighting, and it has a row iff it was ever sighted |
| `CompareRegistry.ReconstructKeeps` | _archive/python-lib/compare_registry.py:877-890 | the reconstruction keeps exactly the rows whose span contains the run |
| `CompareRegistry.AsOfIsSightedAround` | _archive/python-lib/compare_registry.py:877-890 | after any sequence of ingests the reconstruction as of a run lists exactly the entities sighted at or before it and at or after it, so every one present in the run |
| `CompareRegistry.LastRowWins` | _archive/python-lib/compare_registry.py:634-635 | a key is there iff some row has it, and stands for the last such row |
| `CompareRegistry.SameKeyIff` | _archive/python-lib/compare_registry.py:622-624 | two rows have the same key iff every key field agrees, a missing one counting as empty |
| `CompareRegistry.ChangedIff` | _archive/python-lib/compare_registry.py:634-648 | a key of both sides is changed iff the last rows of it differ in a column that is no key field, or only one of them has it; otherwise unchanged |
| `CompareRegistry.OneSidedIff` | _archive/python-lib/compare_registry.py:634-654 | a key is added iff only the first side has a row of it, and removed iff only the second has |
| `CompareRegistry.DiffKeyedTables` | _archive/python-lib/compare_registry.py:627-657 | the summary counts keys by status: only in run 1, only in run 2, in both and differing in a compared column, in both and equal |
| `CompareRegistry.DetailRow` | _archive/python-lib/compare_registry.py:680-710 | one detail row: its status, both sides, and the differing columns |
| `CompareRegistry.DetailRows` | _archive/python-lib/compare_registry.py:660-710 | the detailed diff shows every key of either side exactly once, with its status and rows |
| `CompareRegistry.DetailAgreesWithSummary` | _archive/python-lib/compare_registry.py:627-710 | the detailed rows of each status are as many as the summary counts, duplicate keys included |
| `CompareRegistry.FilteredExactly` | _archive/python-lib/compare_registry.py:712-724 | the filters keep exactly the rows of the status that match |
| `CompareRegistry.PagesArePrefix` | _archive/python-lib/compare_registry.py:739-749 | the first n pages concatenated are a prefix of the filtered rows |
| `CompareRegistry.PagesShowEachOnce` | _archive/python-lib/compare_registry.py:712-749 | pages read in turn show every filtered row exactly once and no other, whatever order the optional sort gives |
| `LogTemplate.KeyInjective` | scripts/dedup_backend_log.py:190-194 | keys of different names or counts differ |
| `LogTemplate.RendersIff` | scripts/dedup_backend_log.py:445-452 | rendering raises iff a placeholder the scan finds has no value |
| `LogTemplate.RenderTakesAngles` | scripts/dedup_backend_log.py:445-452 | with values free of `<` each replaced placeholder takes one `<` away |
| `LogTemplate.RenderByParts` | scripts/dedup_backend_log.py:445-452 | the one-pass scan finds exactly the tokens written, and literals are scanned on their own: no placeholder crosses into a token |
| `LogTemplate.RendersToExpansion` | scripts/dedup_backend_log.py:445-452 | a template whose literals hold no placeholder renders to the text its tokens stand for |
| `LogTemplate.ExactIffStrayFree` | scripts/dedup_backend_log.py:445-452 | with values free of `<`, rendering is exact iff no literal holds a placeholder |
| `LogNormalize.PutIsNew` | scripts/dedup_backend_log.py:190-194 | a new token's key is unused, so no value is overwritten, across all passes and lines |
| `LogNormalize.CutAgrees` | scripts/dedup_backend_log.py:204-209 | emitting the literal parts around a token equals cutting out the captured value |
| `LogNormalize.TokenTable.MakeToken` | scripts/dedup_backend_log.py:190-194 | the counters and values after one token |
| `LogNormalize.TokenTable.Substitute` | scripts/dedup_backend_log.py:204-210 | one pass: text and table after `regex.sub`, for any function returning disjoint matches |
| `LogNormalize.TokenTable.ApplyPatterns` | scripts/dedup_backend_log.py:197-211 | all passes in order |
| `LogNormalize.TokenTable.NormalizeContentLine` | scripts/dedup_backend_log.py:214-232 | process statistics, CRU lines, or all passes |
| `LogNormalize.TokenTable.NormalizeBlock` | scripts/dedup_backend_log.py:235-262 | the template lines and values of a block, all lines sharing one table; nothing for a malformed header |
| `LogLossless.InsertCuts` | scripts/dedup_backend_log.py:197-211 | cutting a value out of a literal keeps what the template stands for |
| `LogLossless.TouchLeaks` | scripts/dedup_backend_log.py:197-211 | a captured value that overlaps an earlier token leaves a `<` that rendering lets through |
| `LogLossless.LeakPersists` | scripts/dedup_backend_log.py:197-211 | no later pass takes that `<` away |
| `LogLossless.LeakShows` | scripts/dedup_backend_log.py:445-452 | such a `<` shows in the result unless rendering raises |
| `LogLossless.PassTracks` | scripts/dedup_backend_log.py:204-210 | a pass keeps the template standing for the original, or leaks |
| `LogLossless.BlockRoundTrip` | scripts/dedup_backend_log.py:190-262 | the block round trip: captures overlapping no earlier token and literals without `<NAME>` give the block's exact text |
| `LogLossless.ExactIffNoStray` | scripts/dedup_backend_log.py:190-262 | for captures overlapping no token and values without `<`: exact iff the literal text holds no placeholder |
| `LogLossless.ExactIffUntouched` | scripts/dedup_backend_log.py:190-262 | for a block without `<`: exact iff no capture overlaps an earlier token |
| `LogLimits.CaptureBreaksRoundTrip` | scripts/dedup_backend_log.py:139-155 | the ENV_NAME capture of a PROJECT_KEY token loses the block, whatever the texts |
| `LogLimits.StrayBreaksRoundTrip` | scripts/dedup_backend_log.py:445-452 | a message that mentions `<NAME>` is not given back, and rendering raises iff no value has that name |
| `LogMarkdown.WriteMarkdown` | scripts/dedup_backend_log.py:383-442 | the lines of the Markdown document |
| `LogMarkdown.HeadingsAreHeadings` | scripts/dedup_backend_log.py:362-364 | exactly the first 9999 family headings have the four digits the reader expects |
| `LogMarkdown.FieldsFound` | scripts/dedup_backend_log.py:457-464 | the reader finds the written template iff the template has no terminator inside; otherwise it stops short |
| `LogMarkdown.FamilyParsed` | scripts/dedup_backend_log.py:455-474 | one family as written is read back, or comes back shorter if its template has a terminator |
| `LogMarkdown.ReadsBackIff` | scripts/dedup_backend_log.py:383-474 | up to 9999 families: reading gives every family back iff no template contains the template terminator |
| `LogMarkdown.FamilyReadAs` | scripts/dedup_backend_log.py:455-474 | a family is read as its template up to the first terminator with all its occurrences, unless the template forges the lines that open the occurrences |
| `LogMarkdown.ReadsBackAs` | scripts/dedup_backend_log.py:383-474 | any document whose templates forge none of its own lines is read as its first 9999 families, each with its template up to the first terminator |
| `LogDedup.ParseBlocks` | scripts/dedup_backend_log.py:296-338 | splitting raises iff the log is empty, does not start with a header or has a header that does not parse; otherwise the blocks are the log, numbered from 1, each with its first line number |
| `LogDedup.BuildFamilies` | scripts/dedup_backend_log.py:340-364 | families hold each block once under its template, in order of first block; the final sort changes nothing |
| `LogRoundTrip.Reconstruct` | scripts/dedup_backend_log.py:477-488 | reading, rendering and sorting: the texts, or nothing if a rendering raises |
| `LogRoundTrip.GroupingKeepsRows` | scripts/dedup_backend_log.py:340-364 | grouping loses and repeats no block |
| `LogRoundTrip.ReadGives` | scripts/dedup_backend_log.py:477-488 | sorted by sequence number the rendered texts stand in the order of the blocks |
| `LogRoundTrip.ComesBackIff` | scripts/dedup_backend_log.py:415-416 | a block that does not end in an empty line comes back iff normalisation keeps it exact; one that does, iff it renders to one newline too many, so never when exact |
| `LogRoundTrip.PlainBlockComesBackIff` | scripts/dedup_backend_log.py:190-262 | a block without `<` comes back iff no capture overlaps an earlier token and it does not end in an empty line |
| `LogRoundTrip.TextsJoin` | scripts/dedup_backend_log.py:296-338 | the block texts joined by newlines are the log |
| `LogRoundTrip.LogRoundTrips` | scripts/dedup_backend_log.py:383-488 | for at most 9999 families without a template terminator: reading the Markdown gives every block's text once and in order, and so the log, iff every block comes back |
| `LogRoundTrip.SafeLogRoundTrips` | scripts/dedup_backend_log.py:383-488 | the whole round trip from conditions on the log: at most 9999 families, captures overlap no token, no placeholder in the text, no block ends in an empty line or holds the terminator lines; then the log is read back |
| `LogRoundTrip.PlainLogRoundTripsIff` | scripts/dedup_backend_log.py:383-488 | for a log without `<`, with at most 9999 families and no template terminator: read back iff no capture overlaps an earlier token and no block ends in an empty line |
| `LogRoundTrip.UnforgedLogRoundTripsIff` | scripts/dedup_backend_log.py:383-488 | for a log without `<` no line of which passes for a heading or the opening of the occurrences: read back iff at most 9999 families, no template terminator, no capture overlaps an earlier token, no block ends in an empty line |
| `SdkCache.OneOwnerPerKey` | python-lib/sdk_cache.py:124-177 | at most one owner per key in every interleaving, and the in-flight map lists exactly the live owners' events |
| `SdkCache.WaitersAreWoken` | python-lib/sdk_cache.py:124-177 | a waiter's event is set, or its owner sets it within four steps of its own |
| `SdkCache.AnswersAreJustified` | python-lib/sdk_cache.py:124-177 | every returned value was stored under its key less than the TTL before it was read, or is this call's own fetch |
| `SdkCache.AnsweredFromCacheIff` | python-lib/sdk_cache.py:131-162 | in every run a lookup or a waiter's second look is answered iff some fetch or set_many stored a value under the key less than the TTL ago and nothing has stored or dropped the key since; the answer is that value and nothing is fetched; otherwise the call goes to the in-flight table, or fetches |
| `SdkCache.FinishedAnswersIff` | python-lib/sdk_cache.py:163-177 | a finished call has answered iff its own fetch did not raise: an error reaches its own caller and nobody else |
| `SdkCache.ServedUntilExpiry` | python-lib/sdk_cache.py:131-177 | a run in which a value fetched at time 0 answers at time 59 and is fetched again at time 60 |
| `ResponseCache.WaitersAreWoken` | python-lib/adk_backend/caching.py:91-144 | a waiter's event is set or its loader sets it within two steps, even though a fall-through can remove another loader's entry |
| `ResponseCache.OneLoaderUnlessFallThrough` | python-lib/adk_backend/caching.py:91-144 | one loader per key as long as no caller of the key fell through |
| `ResponseCache.ErrorReachesOneWaiter` | python-lib/adk_backend/caching.py:113-122 | a failed load's error is raised in at most one waiter |
| `ResponseCache.ErrorInTableIff` | python-lib/adk_backend/caching.py:113-139 | in every run a key's entry in the error table is a call's error iff that call failed and since then no waiter of the key looked, no other load of it failed and nobody cleared the cache |
| `ResponseCache.RaisesIff` | python-lib/adk_backend/caching.py:113-139 | a woken waiter raises a call's error iff that call's load of the key failed before and in between no waiter of the key looked, no other load of it failed and nobody cleared the cache |
| `ResponseCache.FailureReachesIff` | python-lib/adk_backend/caching.py:113-139 | a given failure reaches a given later look iff in between no other waiter of the key looked, no other load of it failed and nobody cleared the cache |
| `ResponseCache.SecondNeverRaises` | python-lib/adk_backend/caching.py:91-122 | of two waiters that look after a failure the second never raises its error, against the function's description |
| `ResponseCache.OnlyWaiterRaisesIff` | python-lib/adk_backend/caching.py:91-122 | the only waiter to look after its own load failed raises its error iff no other load of the key failed and nobody cleared the cache before it looked |
| `ResponseCache.ClearLosesError` | python-lib/adk_backend/routes/misc.py:90-95 | a run in which a load fails, the cache is cleared, and its only waiter raises nothing and loads again |
| `ResponseCache.StaleErrorIff` | python-lib/adk_backend/caching.py:113-139 | a waiter looking after a successful load raises an error iff an earlier failure of the key was still untaken and not cleared; it is never the error of the load that succeeded |
| `ResponseCache.EntersServedIff` | python-lib/adk_backend/caching.py:101-111 | in every run a caller that enters returns a load's value at once iff it was stored under the key less than the TTL ago and nothing has stored or taken out the key since; otherwise it waits if a load is in flight and loads if none is |
| `ResponseCache.WaiterServedIff` | python-lib/adk_backend/caching.py:117-125 | a woken waiter that finds no error returns the value stored last under the key, however old, iff nothing has touched the key since; with none it loads itself |
| `ResponseCache.FinishedReturnsIff` | python-lib/adk_backend/caching.py:112-144 | every finished call has returned a value, unless it raised a waiter's error, its own load raised, or it timed out |
| `ResponseCache.ServedUntilExpiry` | python-lib/adk_backend/caching.py:91-144 | a run in which a value loaded at time 0 is returned at time 59 and loaded again at time 60 |
| `ResponseCache.FallThroughBreaksSingleFlight` | python-lib/adk_backend/caching.py:123-141 | a run in which two loaders of one key are active after a fall-through |
| `ResponseCache.OldErrorAfterSuccess` | python-lib/adk_backend/caching.py:113-141 | a run in which an old error is raised after a later load succeeded |
| `ResponseCache.SecondWaiterGetsNoError` | python-lib/adk_backend/caching.py:91-122 | a run in which the second waiter of a failed load gets no error and loads again, against the function's description |
| `ResponseCache.ScopedKeysCollideExactly` | python-lib/adk_backend/caching.py:60-63 | scoped keys of different hosts or keys differ, except a local key that itself spells a remote one |
| `UsageScan.AttachedWillBeSet` | python-lib/adk_backend/usage_scan.py:479-511 | an event the shared map still shows is set by its owner's next step |
| `UsageScan.LostForever` | python-lib/adk_backend/usage_scan.py:479-511 | an unset event the map no longer shows is never set |
| `UsageScan.OnlyClearLoses` | python-lib/adk_backend/usage_scan.py:443-511 | no step but clearing the map or the death of the scan's owner loses a wake-up |
| `UsageScan.WaitersAreWoken` | python-lib/adk_backend/usage_scan.py:443-511 | on runs that never clear the map during a scan and in which no owner dies every waiter's event is set or about to be |
| `UsageScan.OneShownScan` | python-lib/adk_backend/usage_scan.py:443-477 | at most one scan per key is shown as running, and unless its owner died it runs under the shown event |
| `UsageScan.ResultIsServed` | python-lib/adk_backend/usage_scan.py:443-491 | in every run, until the TTL of a shown scan's result is over or the map is cleared, every call that enters for the key and every woken waiter is done with that result and scans nothing |
| `UsageScan.ResultsAreReal` | python-lib/adk_backend/usage_scan.py:443-511 | a finished call has the result of a scan of its own key that did succeed, and a call raises iff its own scan failed |
| `UsageScan.ServedUntilStale` | python-lib/adk_backend/usage_scan.py:443-511 | a run in which with a TTL of 5 a result of time 0 is given at time 5 and scanned again at time 6 |
| `UsageScan.EnterDropsStale` | python-lib/adk_backend/usage_scan.py:443-452 | a call that enters drops the other keys' entries that are not running and older than the TTL, and no others |
| `UsageScan.DeathStrandsWaiter` | python-lib/adk_backend/usage_scan.py:493-501 | a run in which an exception the owner does not catch strands a waiter, the scan still shown as running |
| `UsageScan.ClearStrandsWaiter` | python-lib/adk_backend/caching.py:163-165 | a run in which clearing the map strands a waiter |
| `BackgroundBudget.OneHolderPerHost` | python-lib/adk_backend/utils.py:101-127 | at most one background scan per host holds the budget, although slots come and go |
| `BackgroundBudget.ScansOfAHostShareOneSlot` | python-lib/adk_backend/utils.py:113-127 | all live scans of a host share the slot in the table, its count is their number, and its permit is free iff none holds it |
| `BackgroundBudget.NoScanGetsStuck` | python-lib/adk_backend/utils.py:113-127 | no release is refused by the bounded semaphore, and only a holder of the host makes a scan wait |
| `BackgroundBudget.NothingLeaks` | python-lib/adk_backend/utils.py:121-127 | the table is empty once the last scan has left |
| `BackgroundBudget.LeftAsItWent` | python-lib/adk_backend/utils.py:113-127 | in every run a scan that has left is done iff it held the permit and timed out iff it gave up waiting |
| `ProductAnalytics.PassingIsUnrevoked` | python-lib/adk_backend/product_analytics.py:224-245 | every event the sender sends was accepted while analytics was enabled, under the secret still in force, with no set_enabled call since |
| `ProductAnalytics.OptOutIsFinal` | python-lib/adk_backend/product_analytics.py:99-116 | nothing accepted before a set_enabled call is taken for sending by a filter after it, even after re-enabling |
| `ProductAnalytics.OptsRiseIff` | python-lib/adk_backend/product_analytics.py:99-116 | the count that stamps carry rises between two states iff set_enabled was called between them |
| `ProductAnalytics.PassedInOrderOnce` | python-lib/adk_backend/product_analytics.py:193-239 | events are sent in order of acceptance, none twice; queue, batch and duplicate table keep their bounds; a second acceptance needs the table cleared in between |
| `ProductAnalytics.PassingIff` | python-lib/adk_backend/product_analytics.py:238 | the filter keeps exactly the batch's events of the current generation |
| `ProductAnalytics.SentIffNotLost` | python-lib/adk_backend/product_analytics.py:99-245 | in every run an accepted event is sent iff it has left the queue and the batch and no step lost it: drained by set_enabled, a failed settings read, no destination configured, or the generation moved on since it was accepted |
| `ProductAnalytics.GenerationMovesIff` | python-lib/adk_backend/product_analytics.py:85-109 | the generation moves by one with every set_enabled and with every read that finds the switch or the secret changed, and with nothing else |
| `ProductAnalytics.AcceptedIff` | python-lib/adk_backend/product_analytics.py:190-213 | an offered event is accepted iff the queue has room and none like it was accepted since the duplicate table was last cleared, which happens at 4096; the caller is told the number; a full queue ends the batch |
| `ProductAnalytics.ReadTells` | python-lib/adk_backend/product_analytics.py:50-88 | a read within ten seconds repeats the last answer; a later one tells the saved switch and keeps a saved secret, and makes one iff analytics is on, a destination is configured and none is saved |
| `ProductAnalytics.NothingOldIsQueued` | python-lib/adk_backend/product_analytics.py:105-116 | outside set_enabled the queue holds only events accepted since its last call |
| `ProductAnalytics.OptOutStopsAcceptance` | python-lib/adk_backend/product_analytics.py:99-213 | in every run, after set_enabled(False) no event is accepted until set_enabled is called again or the settings are edited elsewhere |
| `ProductAnalytics.SwitchIsRead` | python-lib/adk_backend/product_analytics.py:50-109 | what set_enabled saved is what every later read tells, until the next call or edit |
| `ProductAnalytics.OffAndOnAgain` | python-lib/adk_backend/product_analytics.py:50-245 | a run in which events are sent, turned away while off, and sent once on again, and an edit made elsewhere is seen after ten seconds |
| `HeadlessService.SentIsPrefixOfAccepted` | python-lib/adk_backend/headless_service.py:127-184 | the messages sent are a prefix of the messages accepted, one per revision, at most one behind |
| `HeadlessService.OneFollowUpPerRevision` | python-lib/adk_backend/headless_service.py:204-212 | at most one submit is accepted per revision |
| `HeadlessService.StrangersChangeNothing` | python-lib/adk_backend/headless_service.py:186-208 | a stop or follow-up by anyone but the session's owner, or a follow-up under another binding, changes no session and takes no lock |
| `HeadlessService.FollowUpTakenIff` | python-lib/adk_backend/headless_service.py:194-212 | a follow-up is taken iff it is not empty, the session is listed and idle for at most an hour unless live, the caller owns it under this binding, and it is completed, not stopped and at the revision named; otherwise no session changes |
| `HeadlessService.OwnerStops` | python-lib/adk_backend/headless_service.py:234-243 | a stop by the owner of a listed session marks it stopped at once, a pending one unknown, and touches no other |
| `HeadlessService.OwnerAskedForAll` | python-lib/adk_backend/headless_service.py:186-243 | in every run a session's owner made it, asked for every follow-up accepted for it, under its binding and naming the revision before it, and asked for every stop of it |
| `HeadlessService.PendingMeansUnsent` | python-lib/adk_backend/headless_service.py:158-184 | a session pending after its task left the loop has lost its last accepted message; inside the loop the message is next in line |
| `HeadlessService.EndedPendingIff` | python-lib/adk_backend/headless_service.py:127-212 | a session whose task has ended reports pending iff a follow-up was accepted and never sent, nobody stopped it, and either the task left by the idle timeout without crashing or its crash recorded its outcome inside the submit and was overwritten |
| `HeadlessService.PendingForever` | python-lib/adk_backend/headless_service.py:158-184 | and it stays so on every continuation until someone stops the session |
| `HeadlessService.AtMostOneAfterStop` | python-lib/adk_backend/headless_service.py:137-243 | after stop at most one more message is sent: the one whose test of stopped came before the stop, and that one unless the task crashes first |
| `HeadlessService.StopIsHeard` | python-lib/adk_backend/headless_service.py:127-243 | whatever a stopped session's task was doing, it leaves its loop within five steps of its own, without the idle timeout or a crash |
| `HeadlessService.SentAfterStop` | python-lib/adk_backend/headless_service.py:137-141 | a run in which a message is sent after stop, the stop falling between the test and the send |
| `HeadlessService.CapacityHolds` | python-lib/adk_backend/headless_service.py:195-222 | the table never exceeds 128 rows, and at most 8 sessions are live as long as SDK calls start only for live sessions |
| `HeadlessService.LeavesTableOnlyIf` | python-lib/adk_backend/headless_service.py:198-219 | a session leaves the table only when it is over with no SDK call outstanding, and its last turn is over an hour ago or the full table makes room by the one idle longest |
| `HeadlessService.SdkCallsOutstanding` | python-lib/adk_backend/headless_service.py:64-85 | a session counts as many SDK calls outstanding as were started and not finished |
| `HeadlessService.IdleSince` | python-lib/adk_backend/headless_service.py:146-157 | idle time is measured from the last completed turn, or from the making of the session |
| `HeadlessService.IdleRaceLosesMessage` | python-lib/adk_backend/headless_service.py:158-181 | a run in which the idle timeout loses an accepted message and leaves the session pending |
| `HeadlessService.CrashInsideSubmit` | python-lib/adk_backend/headless_service.py:163-209 | a run in which the outcome a crash records falls between the test and the update of submit and is lost |
| `HeadlessService.LateSdkCallMakesNine` | python-lib/adk_backend/headless_service.py:64-85 | a run with nine live sessions when an SDK call starts late |
| `Progress.LogKeeps` | python-lib/adk_backend/progress.py:52-77 | appending keeps the stored events the newest slice of history of length at most the limit |
| `Progress.AtOrAfterNumbered` | python-lib/adk_backend/progress.py:149-151 | filtering stored events by index is the slice from the cursor |
| `Progress.Store.Cleanup` | python-lib/adk_backend/progress.py:15-22 | runs silent beyond the retention are forgotten, others untouched |
| `Progress.Store.Start` | python-lib/adk_backend/progress.py:30-49 | a start replaces the endpoint's run by an empty one |
| `Progress.Store.Append` | python-lib/adk_backend/progress.py:52-77 | the log after one event; a superseded run's writer changes nothing |
| `Progress.Store.AppendPartialRow` | python-lib/adk_backend/progress.py:80-94 | the rows after one row; a superseded run's writer changes nothing |
| `Progress.Store.Finish` | python-lib/adk_backend/progress.py:97-108 | the outcome of a run; a superseded run's writer changes nothing |
| `Progress.Store.SetSummary` | python-lib/adk_backend/progress.py:111-122 | the summary of a run; a superseded run's writer changes nothing |
| `Progress.Store.Read` | python-lib/adk_backend/progress.py:125-171 | the idle, replaced and current replies |
| `Progress.NextIsEnd` | python-lib/adk_backend/progress.py:144-171 | a read gives the events kept from the cursor on and the end of the log as the next cursor, or, before the first event, the cursor it was asked with |
| `Progress.PollerTheorem` | python-lib/adk_backend/progress.py:125-171 | a poller starting at 0 receives events unaltered, in order and at most once, and misses exactly the gaps from its cursors to the oldest event kept; it gets every partial row; events and rows are those appended, in order |
| `Progress.PollCatchesUp` | python-lib/adk_backend/progress.py:67-77 | a poll skips events iff more than the limit were logged since its cursor |
| `Progress.PollShowsOutcome` | python-lib/adk_backend/progress.py:97-171 | a poll tells a run running without error until it is finished, then the status and error of the last finish, and the summary set last |
| `Progress.PromptPollerMissesNothing` | python-lib/adk_backend/progress.py:125-171 | a poller never more than the limit behind misses nothing |
| `DirTree.Summarize` | python-lib/adk_backend/dirtree.py:259-312 | the walk below the limit adds every file once and no directory's own size |
| `DirTree.ScanNode` | python-lib/adk_backend/dirtree.py:343-418 | the recursive scan with its running totals computes the specified node |
| `DirTree.SizeReported` | python-lib/adk_backend/dirtree.py:343-418 | reported size is all file sizes plus the own sizes of directories down to the limit; fileCount is exact |
| `DirTree.DeeperIsNotSmaller` | python-lib/adk_backend/dirtree.py:343-418 | size is monotone in max_depth and fileCount independent of it |
| `DirTree.HiddenIff` | python-lib/adk_backend/dirtree.py:343-418 | hasHiddenChildren iff a directory at the limit has entries, iff some entry has no node |
| `DirTree.NothingHiddenIsFull` | python-lib/adk_backend/dirtree.py:343-418 | without hidden children every entry is a node and the size is the full recursive size |
| `MountOverlay.SummarizeMounts` | python-lib/adk_backend/sysinfo.py:246-281 | root, mounted and total use, the per-path and the per-directory sums are sums over the included mounts |
| `MountOverlay.TopOfIsFirstComponent` | python-lib/adk_backend/sysinfo.py:246-281 | the top-level directory of a mount is the first nonempty component of its path |
| `MountOverlay.RaiseKeepsOwn` | python-lib/adk_backend/dirtree.py:88-97 | a raised child is the larger of bucket and scan, and its size less its children's is unchanged |
| `MountOverlay.OverlaySums` | python-lib/adk_backend/dirtree.py:58-120 | the root's children sum to the larger of bucket and scan per mounted directory plus the larger of root use and the rest of the scan |
| `MountOverlay.SumIsTotalUsedIff` | python-lib/adk_backend/dirtree.py:58-120 | they sum to total used iff no scan exceeds df |
| `MountOverlay.RootTree.PutOne` | python-lib/adk_backend/dirtree.py:70-98 | one bucket applied to its child or to a new one |
| `MountOverlay.RootTree.ApplyOverlay` | python-lib/adk_backend/dirtree.py:58-120 | the overlay in place; overlayUnknownBytes grows by exactly the increase of the children's sum |
| `MountOverlay.UnderIff` | python-lib/adk_backend/dirtree.py:27-55 | a mount lies at or under a path iff it is the path or the path, less trailing slashes, then a slash and anything |
| `MountOverlay.TargetNode.Overlay` | python-lib/adk_backend/dirtree.py:27-55 | a node below the root grows to what df reports at or under it, keeps size minus children, and the counter grows by as much |
| `Zipf.SharesSum` | scripts/populate_dummy_instance.py:215-217 | the exact shares sum to the total |
| `Zipf.ShareIsZipf` | scripts/populate_dummy_instance.py:215-217 | the share of bucket i is the total divided by i + 1 and by the harmonic sum 1 + 1/2 + ... + 1/n, so i + 1 times it is the first share |
| `Zipf.DeficitBelowBuckets` | scripts/populate_dummy_instance.py:218-222 | the floor deficit is nonnegative and below the number of buckets |
| `Zipf.OrderSorts` | scripts/populate_dummy_instance.py:223 | the order is a permutation of the buckets by descending fraction, equal fractions in bucket order |
| `Zipf.FourRounds` | scripts/populate_dummy_instance.py:224-229 | the remainder loop reaches every bucket four times in its bound, never more |
| `Zipf.HandOut` | scripts/populate_dummy_instance.py:221-229 | the remainder loop clears the deficit without a cap, giving one each to the first buckets of the order, and with one iff it fits into four places per bucket, giving at most four each |
| `Zipf.Allocate` | scripts/populate_dummy_instance.py:210-229 | the counts before the shuffle: the whole part of total / ((i + 1) H) each, or one more, the larger fractions first, so no later bucket exceeds an earlier one by more than one; sum exactly the total without a cap; with one the whole part to four more, at most the cap, and at most the total in sum |
| `Zipf.OneBucketLosesTotal` | scripts/populate_dummy_instance.py:210-212 | with a cap the sum can miss the total, against the function's description |
| `Zipf.ShuffleIsPermutationIff` | scripts/populate_dummy_instance.py:230-233 | the shuffle is a permutation iff the number of buckets is coprime to 2654435761 |
| `Zipf.Shuffle` | scripts/populate_dummy_instance.py:230-234 | each count in its slot, the last one wins; the sum is kept if coprime, and for counts not below zero iff only zeros are overwritten |
| `Zipf.SharedSlotLoses` | scripts/populate_dummy_instance.py:230-234 | positive counts keep their sum in the shuffle iff the number of buckets is coprime to the multiplier |
| `Zipf.ZipfDistribution` | scripts/populate_dummy_instance.py:210-234 | for a bucket count coprime to the multiplier: slot of bucket k holds its rounded Zipf share as before the shuffle; without a cap the buckets sum exactly to the total, with one iff the deficit fits into four places per bucket; for every count a nonnegative cap bounds every bucket and the sum is at most the total |
| `LogParse.ParseLogErrors` | python-lib/adk_backend/logparse.py:81-151 | the loop with its variables computes the specified windows and count |
| `LogParse.ReportIsLastWindows` | python-lib/adk_backend/logparse.py:81-151 | the last min(5, recorded) windows are kept, windows are disjoint and increasing, error_count is the number opened: recorded or replaced |
| `LogParse.WindowsFromLog` | python-lib/adk_backend/logparse.py:92-144 | every window, recorded or open, starts at an error line, and the lines that restart it are exactly the later errors within five seconds of that line, up to the closing line |
| `LogParse.ErrorsAreOpeners` | python-lib/adk_backend/logparse.py:96-143 | error_count is the number of lines that open a window, and a line does iff it is an error, closes no window and does not come too soon after the last opener |
| `LogParse.HundredLinesIff` | python-lib/adk_backend/logparse.py:96-131 | a window holds the hundred lines from its error line, or those left, iff none of the next 98 lines is an error within five seconds of it |
| `LogParse.RestartTakenIff` | python-lib/adk_backend/logparse.py:124-131 | the inner re-extension branch is taken at a line iff a window is open that the line does not close and the line is an error too soon after its error line |
| `LogParse.RecordedIffNotReplaced` | python-lib/adk_backend/logparse.py:96-143 | an opened window is recorded iff no later error replaced it, and the replacing lines are those counted |
| `LogParse.WindowContents` | python-lib/adk_backend/logparse.py:96-110 | what a recorded window holds before and after, and where it ends, in terms of the lines of the log |
| `LogParse.EndsAtErrorIff` | python-lib/adk_backend/logparse.py:96-110 | the lines before end at the error line iff it is the last line of the log |
| `LogParse.RestartIsReached` | python-lib/adk_backend/logparse.py:124-131 | two errors within five seconds: one window that shows its second line twice |
| `LogParse.ReplacedIsLost` | python-lib/adk_backend/logparse.py:133-143 | in every log, an error that opens a window while another is collecting replaces it, and the replaced window is never recorded |
| `LogParse.SecondErrorReplacesFirst` | python-lib/adk_backend/logparse.py:133-143 | the shortest such log: two errors without timestamps |
| `GitAdoption.ContinueGitLog` | python-lib/adk_backend/clients.py:644-664 | a continued log is a prefix of the history, complete or thirty pages longer, with the marker iff incomplete; nothing iff a page asked for fails |
| `GitAdoption.FillMonthRange` | python-lib/adk_backend/clients.py:598-616 | contiguous and strictly increasing from first to last active month, containing every active month, or the active months as they are |
| `GitAdoption.CommitsAgree` | python-lib/adk_backend/clients.py:758-822 | project commits, builder commits and commitCount agree; month counts sum to the dated human commits |
| `GitAdoption.CountersCount` | python-lib/adk_backend/clients.py:758-822 | a builder's counter is its human commits in all logs, a month's the human commits dated in it |
| `GitAdoption.RowsSay` | python-lib/adk_backend/clients.py:758-822 | one row for each project with a log, in catalog order, with its human commits, their authors and months |
| `GitAdoption.PeopleAgree` | python-lib/adk_backend/clients.py:758-848 | summed project author counts exceed summed builder project counts by the authors counted again, so they are equal iff no key stands twice in the catalog whose log has a human author |
| `GitAdoption.DistinctKeysAgree` | python-lib/adk_backend/clients.py:758-848 | with distinct project keys the two sums are equal |
| `GitAdoption.AdoptionGitAggregate` | python-lib/adk_backend/clients.py:758-822 | the counting loops compute the specified totals |
| `GitAdoption.MonthlyTrend` | python-lib/adk_backend/clients.py:829-838 | the monthly trend rises strictly and its commits sum to the dated human commits |

## Left out

- SQL text, schemas, drivers, commits and rollback: a batched ingest commits in four calls, and no atomicity is claimed. Snapshot tables, campaign summaries and `run_sections` rows are not part of the modelled tables.
- Races of two processes that read the same maximum id.
- Sorting for display: detail rows, tree children and builder lists are in an unspecified or listing order. The text a search looks at is a predicate.
- PagesShowEachOnce: page numbers start at 1.
- ScopedKeysCollideExactly: host ids are taken to contain no colon.
- OneOwnerPerKey: one `SdkApiCache` in the process; two instances would share the in-flight table but not the memory. The SQL level of that cache is not modelled.
- The caches, the scan budget, the Headless sessions and the analytics queue are step relations over values rather than classes, since their subject is the interleaving of threads: a lock-protected region is one step, so nothing is said about what happens inside one, and an event or slot object is known by a number.
- The final block of a Headless task, its two unlocked writes included, is one step, as is everything else a request does under the lock, except that `submit` is two.
- The streaming route for compute placement shares the tables of the response cache and is modelled by calls that look at an error without taking it; what it sends to its client is not.
- Wall-clock fairness: waiting is a step that may also time out at any moment.
- OptOutIsFinal: it speaks of the filter; a post already past the filter when `set_enabled` runs still goes out. Enabled is the cached setting, up to ten seconds older than the saved one. A failing save changes nothing and is not a step.
- Event validation, pseudonyms and the network post itself in product analytics: a filtered batch handed to the post counts as sent.
- ResultIsServed: the TTL of a shared usage scan is a setting and is taken to stay the same.
- EntityShowsLastGiven: the rows of one table are taken to have the same columns.
- CapacityHolds: the limit of 8 needs SDK calls to start only for live sessions, as the code itself does not enforce.
- The upstream Headless server's own bookkeeping and session snapshots.
- Regular-expression syntax: patterns are functions that return disjoint matches around nonempty values, as the fifteen patterns and the three line shapes do. JSON is an injective codec whose rows start with a brace. Lines contain no line separators of any kind, as after `splitlines`.
- ParseFamilies: the reader is taken as the chain of first occurrences that its one lazy expression amounts to.
- LogRoundTrips: a log whose own lines pass for headings or for the opening of the occurrences, together with more than 9999 families or with a terminator in a template: which texts such a document renders to is not stated.
- Symbolic links, permission errors, excluded prefixes and the scan without `approximate_limit`.
- SumIsTotalUsedIff: paths of the scanned children are taken to be distinct.
- Floating-point rounding in the allocator: weights and shares are exact reals.
- ParseLogErrors: buffers hold line numbers instead of text, so that window contents can be stated; the HTML output, the tail shown when there are no errors and the unused signature set are left out.
- A git cursor is the position of the first entry not yet returned.
- First and last commit times, active builders per month, single and repeat builders and per-builder months in the adoption aggregate are not modelled.
- LLM audit, code environment builds, the Cobuild bridge, host key derivation, routes, agent tools and report generation.
