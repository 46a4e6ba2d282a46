# Accounting core of Infra Sentinel, verified

The agent keeps several ledgers that must not double count, lose or invent anything across restarts,
retries and compaction. This project models them in Dafny and proves what they keep over every run.

- **Codex rollout ledger** (`Codex*.dfy`, `TokenCompositions.dfy`). An append-only log is parsed in
  budgeted polls with checkpointed parser state, a fork gate, a counter state machine and a key set
  across files. Polling in any way equals the one-shot audit of the captured prefixes.
- **Tiered metric store** (`Metric*.dfy`). Points are merged in memory, flushed by upsert, compacted to
  hours and days, and queried through an overlay of disk and memory. Contents are compared as books:
  maps from buckets to summaries, told apart by their totals over selections of buckets.
- **Diagnostic journal** (`Diagnostic*.dfy`, `Traffic*.dfy`, `StatusStability.dfy`,
  `CollectorRuns.dfy`). A persistent journal of raised, changed and recovered conditions, driven by
  noisy and sometimes stale observations and by confirmation windows that forget on restart.
- **Usage series, DSH sessions, wire reader, commands and receipts** (`Usage*.dfy`, `Dsh*.dfy`,
  `WireReader.dfy`, `CommandProtocol.dfy`).

Objects that the source updates in place are classes whose methods are proved against functions on
values; the results over runs are lemmas about those functions. `Folding.dfy` runs state machines over
sequences and maps. `CodexGate.dfy`, `CodexTokens.dfy`, `MetricAnswers.dfy`, `DiagnosticSamples.dfy` and
`DshCounts.dfy` tell what the operations do in the terms of their inputs alone.

Where the code keeps less than one might expect, the code is modelled as it is and the exact condition is
proved:

- read errors lose keys (`CodexLedger.CountedOnce`), and a retry may count under a second key
  (`CodexLineage.RetryCountsNothingIff`);
- over-long lines can leave an offset inside a line (`CodexReading.EveryBudgetStopsOnBoundaryIff`);
- a header read too late changes keys, days and parser state (`CodexLateHeader.LateHeaderAgreesIff`);
- copies that disagree are credited in order of polling (`CodexAudit.CreditsDoNotDependOnPollingIff`);
- storing a parser state can change it (`CodexCheckpoint.RoundTrip`);
- compaction disturbs requests whose bounds cut its buckets (`MetricLimits.UnnoticedIff`) and, in time
  zones off the hour, the local day (`MetricTiers.HoursFitBetweenMidnightsIffAligned`);
- a restart without a flush loses the buffer (`MetricLimits.RestartLosesTheBuffer`), and a grouped read
  may not show the newest value (`MetricLimits.GroupedLastValueIsTheNewestIff`);
- a recovering collector drops points (`CollectorRuns.PointsAreLostWhileDown`);
- a lost checkpoint lets requests come back (`DshUsage.ComesBackIff`), and a request that is reported again
  after it was emitted keeps its first count (`DshCounts.EmittedCountIsFinalIff`);
- a model under the reserved name can unbalance a row (`UsageSeries.NormalizedRow`).

`dafny verify dfyconfig.toml` checks the project.

## Model

| member | source | states |
|---|---|---|
| CodexReplay.PollingDoesNotMatter | src/infra_sentinel/resources/ai/codex_sampling.py:532-739 | Two runs of polls and reloads without read errors that captured the same file prefixes, however split, budgeted and interleaved, hold the same offsets, parser states and keys and have counted one event per key; where the first claims of different files under one key agree, they hold the same daily totals |
| CodexReplay.OneFileIsItsReplay | src/infra_sentinel/resources/ai/codex_sampling.py:661-814 | One growing file, however polled, budgeted and reloaded, leaves exactly the days and keys of a one-shot replay of its captured prefix |
| CodexReplay.CreditsOfRun | src/infra_sentinel/resources/ai/codex_sampling.py:958-977 | The first claim of a key in a run is the first claim of that key in one of the files |
| CodexReplay.CheckpointIsReplay | src/infra_sentinel/resources/ai/codex_sampling.py:661-739 | After any such run each stored checkpoint is the one-shot replay of the captured prefix, and its offset is the length of that prefix and a record boundary |
| CodexReplay.EmissionsAreReplays | src/infra_sentinel/resources/ai/codex_sampling.py:661-814 | What a run settled is, as a multiset, the union of the one-shot replays of its files |
| CodexReplay.SplitPoll | src/infra_sentinel/resources/ai/codex_sampling.py:661-739 | Polling a file in two goes leaves the whole ledger as polling it once, per-model splits included |
| CodexReplay.HeaderFixesIdentity | src/infra_sentinel/resources/ai/codex_sampling.py:1239-1260 | Once the header line of an append-only file is written, every later poll reads the same session and parent; before that, the same or the stand-in of the file name |
| CodexAudit.AuditAgrees | src/infra_sentinel/resources/ai/codex_sampling.py:445-497 | An audit of the captured prefixes of any faithful run reads every file without error and reaches the ledger's keys, event count and, where the first claims of different files under one key agree, daily totals |
| CodexAudit.CreditsDoNotDependOnPollingIff | src/infra_sentinel/resources/ai/codex_sampling.py:958-977 | What is credited under each key is the same however the files are polled if and only if the first claims of different files under one key agree |
| CodexAudit.AuditFile | src/infra_sentinel/resources/ai/codex_sampling.py:766-814 | Succeeds exactly when the prefix exists and ends on a record boundary, and then adds the settled events of its one-shot replay |
| CodexAudit.AuditLedger | src/infra_sentinel/resources/ai/codex_sampling.py:445-497 | Counts one error for each file that cannot be replayed, and without errors has the days of the equivalent run of polls |
| CodexTail.IngestTail | src/infra_sentinel/resources/ai/codex_sampling.py:661-739 | One budgeted call is the replay of the bytes up to its last whole line; it stops where the reading function says, consumes at most budget + 1 bytes, takes every line that ends within the budget, and after a read error returns the old offset and state, no increments, but keeps the inserted keys |
| CodexReading.EveryBudgetStopsOnBoundaryIff | src/infra_sentinel/resources/ai/codex_sampling.py:684-697 | Every budget leaves the offset on a record boundary if and only if no stretch of more than MAX_LINE_BYTES bytes after a record boundary lacks a newline |
| CodexReading.StopsInStretch | src/infra_sentinel/resources/ai/codex_sampling.py:684-697 | The budget that reaches the first such stretch with MAX_LINE_BYTES to spare stops inside it |
| CodexTail.ReadChunk | src/infra_sentinel/resources/ai/codex_sampling.py:684-697 | A bounded read ends at the first newline, the limit or the end of the file, whichever comes first |
| CodexTail.SkipOversized | src/infra_sentinel/resources/ai/codex_sampling.py:684-697 | Skipping an over-long line advances to its newline or to the end of the budget |
| CodexService.CodexRolloutLedger.PollFile | src/infra_sentinel/resources/ai/codex_sampling.py:532-610 | One file under a budget: its checkpoint advances by the bytes used, other checkpoints stay, and the ledger remains the run of its recorded steps |
| CodexService.CodexRolloutLedger.Update | src/infra_sentinel/resources/ai/codex_sampling.py:560-610 | The candidates are visited in order: one with unread bytes is polled once, stops where what is left of the limit makes the reader stop and is left incomplete for a long line, an unfinished line, the spent limit or a read error only; others are passed over, and only a spent limit cuts the visit short. With files at rest and a limit for all unread bytes each of them gets exactly one poll to its end, and the update is partial only if some stored file was left incomplete. No offset falls, and at most one byte over the limit is read |
| CodexReading.BudgetReadsAll | src/infra_sentinel/resources/ai/codex_sampling.py:684-712 | A budget for the unread bytes of complete lines that fit reads all of them |
| CodexService.AmpleVisitIsWhole | src/infra_sentinel/resources/ai/codex_sampling.py:571-605 | A limit for all unread bytes of files at rest never cuts a visit short, and leaves every offset at the file's size |
| CodexService.CodexRolloutLedger.AddIncrement | src/infra_sentinel/resources/ai/codex_sampling.py:742-763 | One increment lands in the row of its day and leaves other days alone |
| CodexService.CodexRolloutLedger.Reload | src/infra_sentinel/resources/ai/codex_sampling.py:305-350 | Saving and loading is the reload step of the run |
| CodexService.GoodHistoryIsFaithful | src/infra_sentinel/resources/ai/codex_sampling.py:532-610 | Any history of updates and reloads over append-only files with clean lines and no over-long stretch is a run to which the main results apply |
| CodexService.GrowingFileIsItsReplay | src/infra_sentinel/resources/ai/codex_sampling.py:532-739 | Such a history over one file holds the days, keys, offset and parser state of a one-shot replay of what was captured |
| CodexLedger.CountedOnce | src/infra_sentinel/resources/ai/codex_sampling.py:730-763 | Over any run with any files, copies, forks, errors and reloads, the summed events equal the number of keys if and only if no failed poll inserted a new key |
| CodexLedger.EventsAndKeys | src/infra_sentinel/resources/ai/codex_sampling.py:742-763 | Events counted plus keys lost to read errors are the keys, over any run |
| CodexLineage.RetryCountsNothingIff | src/infra_sentinel/resources/ai/codex_sampling.py:730-731 | In a reachable ledger that holds no keys of an earlier such retry, polling the same bytes again after a read error counts nothing if and only if the file has a stored state, or its parent is known, or no usage precedes the record that names its session or parent |
| CodexLineage.RetryAfterErrorCountsNothing | src/infra_sentinel/resources/ai/codex_sampling.py:730-731 | After a read error on a file with a stored state, polling the same bytes again counts nothing |
| CodexLimits.FirstRetryCountsAgain | src/infra_sentinel/resources/ai/codex_sampling.py:730-731 | After a failed first poll a token record without a header is counted by the retry, under a second key |
| CodexLimits.FailedPollLosesAKey | src/infra_sentinel/resources/ai/codex_sampling.py:730-731 | A read error after the first token record of a file keeps its key and loses its event |
| CodexAgreement.OrderDoesNotMatter | src/infra_sentinel/resources/ai/codex_sampling.py:742-763 | Where equal keys claim equal usage, ledgers built from the same emissions in any order agree on every row, and on the per-model split of days with at most 128 models |
| CodexAgreement.EventsCountKeys | src/infra_sentinel/resources/ai/codex_sampling.py:958-977 | Settling emissions adds exactly one event per inserted key |
| CodexDays.RowsAreTallies | src/infra_sentinel/resources/ai/codex_sampling.py:742-763 | Every day row is the tally of the credited keys of that day, independent of how it was accumulated |
| CodexGate.ForkedFile | src/infra_sentinel/resources/ai/codex_sampling.py:817-977 | A file with a forking header, replayed history up to the first turn of the child and records of its own counts, from a fresh state, exactly its final counter minus the last replayed one, if its keys are new to the ledger; which turn is the child's is told from the records alone |
| CodexGate.GateOpensAtChild | src/infra_sentinel/resources/ai/codex_sampling.py:1082-1105 | Behind a header that names a parent the gate stays closed exactly as long as no turn is the child's, and the first turn that is opens it: at once while no foreign header was seen or the child has no name, by a UUID time above the child's, or, with an equal or unknown time, for a user's fork or after a task of that turn that began no earlier than the child |
| CodexGate.HeaderShutsGate | src/infra_sentinel/resources/ai/codex_sampling.py:865-893 | A header that names a parent closes the gate, unless it repeats the active child's |
| CodexGate.OpeningTurnIsTheChilds | src/infra_sentinel/resources/ai/codex_sampling.py:832-842 | The turn that opens the gate sets its own model and the child's session and keeps counters and baseline |
| CodexGate.ReplayOnlyClaimsNothing | src/infra_sentinel/resources/ai/codex_sampling.py:817-863 | Until a turn is the child's a forked file claims nothing |
| CodexGate.EarlierTurnsStayClosed | src/infra_sentinel/resources/ai/codex_sampling.py:1088-1089 | After a foreign header, turns whose UUID time is below the child's never open the gate, whoever forked |
| CodexTokens.SessionClaimsWhatItSpends | src/infra_sentinel/resources/ai/codex_sampling.py:895-977 | Whatever the counters of an unforked session do -- rise, repeat, fall back a little, start again or be missing -- it claims the last usage of each record that moved the counter, or the rise where none is given, and nothing for old or repeated snapshots |
| CodexTokens.FreshRecordSpends | src/infra_sentinel/resources/ai/codex_sampling.py:907-948 | A token record past the inherited baseline claims what it spends, if anything, and moves the counter to compare with |
| CodexTokens.CoveredIsNoted | src/infra_sentinel/resources/ai/codex_sampling.py:1124-1133 | A counter still covered by the replayed one is noted as inherited and changes nothing |
| CodexTokens.UnspentIsNoted | src/infra_sentinel/resources/ai/codex_sampling.py:917-955 | A record that spends nothing is noted as a duplicate or as a restart, by its counters |
| CodexTokens.ClaimIsDatedAndKeyed | src/infra_sentinel/resources/ai/codex_sampling.py:956-966 | A claim is dated at the accepted instant of its turn or prompt and keyed by its counter or else by its instant and usage, under the parent or else the session |
| CodexTokens.ClaimsCarryTheirContext | src/infra_sentinel/resources/ai/codex_sampling.py:865-906 | A claim is made under the model of the last turn, the session of the last header and the source that header gives |
| CodexTokens.AcceptedInstant | src/infra_sentinel/resources/ai/codex_sampling.py:900-960 | Turns and prompts set the accepted instant and a claim moves it forward only |
| CodexTokens.RiseIsSpent | src/infra_sentinel/resources/ai/codex_sampling.py:1163-1166 | A counter that rose and carries no last usage spends exactly its rise |
| CodexFork.ForkedSession | src/infra_sentinel/resources/ai/codex_sampling.py:817-977 | From a closed fork gate a session counts exactly its final counter minus the last replayed one, if its keys are new to the ledger |
| CodexFork.UnforkedSession | src/infra_sentinel/resources/ai/codex_sampling.py:817-977 | An unforked session counts exactly its final counter |
| CodexFork.ReplayedClaimsNothing | src/infra_sentinel/resources/ai/codex_sampling.py:832-863 | While the fork gate is closed replayed records claim nothing |
| CodexFork.OwnRunClaimsGrowth | src/infra_sentinel/resources/ai/codex_sampling.py:895-977 | Own records, with repeated snapshots between, claim the growth of the counter under pairwise distinct keys |
| CodexFork.HeaderArmsGate | src/infra_sentinel/resources/ai/codex_sampling.py:865-893 | A header naming a parent closes the gate and clears the baseline |
| CodexFork.ReplayIsParse | src/infra_sentinel/resources/ai/codex_sampling.py:817-977 | Replaying lines is parsing the records in them, so the results on records hold of bytes |
| CodexLog.ReplayConcat | src/infra_sentinel/resources/ai/codex_sampling.py:661-739 | Replaying two stretches of whole lines one after the other is replaying both |
| CodexLog.LineIsOneRecord | src/infra_sentinel/resources/ai/codex_sampling.py:706-712 | A line over 524288 bytes or one that does not decode changes nothing, any other is one record |
| CodexLog.SettledKeys | src/infra_sentinel/resources/ai/codex_sampling.py:958-977 | Settling inserts exactly the keys of the claims |
| CodexCheckpoint.RoundTrip | src/infra_sentinel/resources/ai/codex_sampling.py:1291-1342 | Storing and reading a parser state back is the identity exactly for the codable states: trimmed texts, positive epochs and counters, nonzero child time |
| CodexCheckpoint.ConsumeKeepsCodable | src/infra_sentinel/resources/ai/codex_sampling.py:817-977 | Parsing clean records never leaves the codable states |
| CodexCheckpoint.ReloadKeepsCodable | src/infra_sentinel/resources/ai/codex_sampling.py:305-350 | Normalizing a stored codable state on load changes nothing |
| CodexCheckpoint.UncleanRecordIsLost | src/infra_sentinel/resources/ai/codex_sampling.py:1291-1342 | Each condition of a clean record is needed: breaking it drives a fresh state out of what storage can express |
| CodexCheckpoint.CutSourceLosesItsBlank | src/infra_sentinel/resources/ai/codex_sampling.py:1271-1281 | A thread source cut after a blank at 64 characters is changed by a reload |
| CodexLimits.OversizedLineIsMisread | src/infra_sentinel/resources/ai/codex_sampling.py:684-697 | A poll whose budget ends inside an over-long line makes the next poll read its tail as a record, which the one-shot replay does not |
| CodexLateHeader.LateHeaderAgreesIff | src/infra_sentinel/resources/ai/codex_sampling.py:1239-1260 | Any polls, budgets and reloads of a growing file, each poll under the lineage it reads, leave the keys of one replay under the lineage read last if and only if every poll read that lineage or nothing was keyed too early (no usage captured before the header's poll if the header names a parent, no usage before the header otherwise), and then its days too; the stored offset and parser state are those of the replay if and only if every poll read that lineage, or it names no session, or the header itself has been captured |
| CodexLateHeader.RunIsTwoPolls | src/infra_sentinel/resources/ai/codex_sampling.py:661-739 | Such a run leaves the whole ledger of at most two polls: the last one under the stand-in of the missing header and the last one of all |
| CodexLateHeader.UnfinishedLineNamesNothing | src/infra_sentinel/resources/ai/codex_sampling.py:1239-1260 | A line still being written changes no lineage until it decodes |
| CodexLateHeader.LineageIsFirstHeader | src/infra_sentinel/resources/ai/codex_sampling.py:1239-1260 | The lineage of a file is that of the first session header among its first 32 lines if no line up to it is over-long, and else the stand-in of the file name |
| CodexLimits.LateHeaderChangesKeys | src/infra_sentinel/resources/ai/codex_sampling.py:1239-1260 | A token record polled before the session header is written is keyed by the two polls as no replay keys it |
| CodexLimits.CopiesMayDisagree | src/infra_sentinel/resources/ai/codex_sampling.py:1173-1185 | Two copies of a session with the same counter and different last usage: the day total is that of the copy polled first |
| CodexParser.RolloutParser.ConsumeRecord | src/infra_sentinel/resources/ai/codex_sampling.py:817-977 | The in-place parser yields the state, event and keys of the parsing function |
| TokenCompositions.RowsOfRunsAreComplete | src/infra_sentinel/resources/ai/codex_sampling.py:742-763 | Over any run, with any number of models, errors and reloads, the model split of every day row adds up to the row in every counter, under at most 129 names with matching totals |
| TokenCompositions.AddKeepsParallel | src/infra_sentinel/resources/ai/codex_sampling.py:45-56 | Adding keeps both model maps with the same keys in the same order, matching totals and at most 129 keys |
| TokenCompositions.MergeKeepsParallel | src/infra_sentinel/resources/ai/codex_sampling.py:68-82 | Merging keeps them so, although each map decides on the shared slot by itself |
| TokenCompositions.MergeKeepsComplete | src/infra_sentinel/resources/ai/codex_sampling.py:68-82 | After a merge the per-model totals still sum to the total |
| TokenCompositions.MergeKeepsNames | src/infra_sentinel/resources/ai/codex_sampling.py:76-82 | While all names fit into 128, each name of a merge holds the sum of what both sides held under it, in both maps |
| TokenCompositions.HeldNamesStay | src/infra_sentinel/resources/ai/codex_sampling.py:76-78 | Past 128 names too, a name that was held keeps what both sides held under it |
| TokenCompositions.AddKeepsNames | src/infra_sentinel/resources/ai/codex_sampling.py:53-56 | A model is added under its own name while it is held or there is room, and under the shared name past 128 |
| TokenCompositions.CumulativeIsComplete | src/infra_sentinel/resources/ai/codex_sampling.py:352-356 | The cumulative composition is the sum of the days |
| TokenCompositions.TokenComposition.Add | src/infra_sentinel/resources/ai/codex_sampling.py:45-56 | The in-place addition makes the composition the added value |
| TokenCompositions.TokenComposition.Merge | src/infra_sentinel/resources/ai/codex_sampling.py:68-82 | The in-place merge makes the composition the merged value and leaves the other as it was |
| MetricEngine.AnswersAreDirect | src/infra_sentinel/metrics/pipeline.py:37-201 | Over any run of ingests, flushes, write failures, compactions and orderly restarts a query answers, bucket by bucket, as if all points ever ingested had been aggregated directly, provided each compaction moves another resource or has every bound of the request before its cutoff on its grid |
| MetricEngine.DirectIsStraight | src/infra_sentinel/metrics/aggregation.py:177-219 | For windows whose bounds lie on the hot grid, and requested buckets made of whole hot buckets, bucketing every point on the hot grid first makes no difference |
| MetricEngine.AlignedAnswersAreStraight | src/infra_sentinel/metrics/pipeline.py:37-201 | For such requests the answer of any run is that of posting the raw points of the window straight into the requested buckets |
| MetricAnswers.AnswersTellThePoints | src/infra_sentinel/metrics/pipeline.py:37-201 | Over any run, for such requests, every returned point is the sum of the raw points asked for that fall in its bucket, or their mean if they measure, with their number, extremes and last epoch, and every raw point asked for is in one |
| MetricAnswers.StraightHolds | src/infra_sentinel/metrics/aggregation.py:184-219 | Each bucket of a straight answer holds the raw points of the window with the fields asked for that fall in it |
| MetricEngine.FlushMovesCompleted | src/infra_sentinel/metrics/pipeline.py:46-62 | A flush moves exactly the buckets that are over |
| MetricRows.MatchesIsWantedInWindow | src/infra_sentinel/metrics/store.py:676-682 | A row matches exactly if its epoch is in the window and its metric, source, resource and instrument are those asked for |
| MetricEngine.RunConserves | src/infra_sentinel/metrics/pipeline.py:37-81 | Every total a compaction cannot see grows over any run by exactly the points ingested |
| MetricEngine.FlushKeepsWhole | src/infra_sentinel/metrics/pipeline.py:49-81 | A flush of completed or of all buckets, successful or failed, changes nothing in memory and table together |
| MetricEngine.CompactionIsUnseen | src/infra_sentinel/metrics/store.py:515-561 | A compaction changes no total over a selection that does not separate a row from its target bucket |
| MetricEngine.UndisturbedIsBlind | src/infra_sentinel/metrics/store.py:698-723 | A compaction of another resource, or with every bound of the window and of its buckets before the cutoff on its grid, is invisible to the request |
| MetricLimits.UnnoticedIff | src/infra_sentinel/metrics/store.py:515-561 | Over all tables and buffers a compaction leaves the answer to a request as it was if and only if it moves another resource or every bound of the request before its cutoff is on its grid |
| MetricLimits.HalfHourWindowIsCut | src/infra_sentinel/metrics/store.py:515-561 | An hourly compaction is noticed by a window that starts at half past |
| MetricEngine.OrderOfPointsDoesNotMatter | src/infra_sentinel/metrics/aggregation.py:177-219 | Direct aggregation depends only on the multiset of points |
| MetricEngine.TwoLevelsAgree | src/infra_sentinel/metrics/aggregation.py:180-215 | Merging into narrow buckets and those into wide ones equals merging into the wide ones at once when the grids nest |
| MetricAggregates.BucketStartIsTheAlignedFloor | src/infra_sentinel/metrics/aggregation.py:24-26 | The bucket start is the only aligned epoch at most one width behind |
| MetricAggregates.BucketsNest | src/infra_sentinel/metrics/aggregation.py:24-26 | Bucketing on a finer grid first does not change the coarse bucket when width and offset difference are multiples |
| MetricAggregates.MergeKeepsContent | src/infra_sentinel/metrics/aggregation.py:102-119 | Merging two buckets merges their sum (sample-weighted for gauges), count, extremes, last epoch and estimated flag |
| MetricAggregates.MetricAccumulator.AddBucket | src/infra_sentinel/metrics/aggregation.py:180-215 | The slot of the bucket gains its contents and no other slot changes |
| MetricAggregates.MetricAccumulator.AddPoints | src/infra_sentinel/metrics/aggregation.py:177-219 | Every point is merged into its slot |
| MetricAggregates.MetricAccumulator.DrainBefore | src/infra_sentinel/metrics/aggregation.py:224-227 | Exactly the buckets before the cutoff leave, each listed once |
| MetricAggregates.MetricAccumulator.DrainAll | src/infra_sentinel/metrics/aggregation.py:229-232 | Every bucket leaves, listed once |
| MetricRows.UpsertsPost | src/infra_sentinel/metrics/store.py:206-232 | Upserting a list of buckets adds what they contain to the table |
| MetricRows.RowBucketContent | src/infra_sentinel/metrics/store.py:487-513 | A row read back is the bucket it was written from |
| MetricRows.CastAgreesFromOffsetUp | src/infra_sentinel/metrics/store.py:703-704 | The SQL cast finds the accumulator's bucket exactly for epochs at or above the offset or on the grid |
| MetricStore.MetricStore.WriteBuckets | src/infra_sentinel/metrics/store.py:249-258 | One transaction writes all buckets or none |
| MetricStore.MetricStore.QueryPoints | src/infra_sentinel/metrics/store.py:650-752 | Refuses a malformed request; otherwise, if the groups fit the limit, the answer carries every matching row in its bucket and nothing else; every point has the metric, source, resource and instrument asked for and stands for a row of the window, and within the limit every such row has a point |
| MetricStore.GroupsReadPost | src/infra_sentinel/metrics/store.py:698-723 | Grouped reading moves every row's contents into its group |
| MetricStore.MetricStore.CompactChunk | src/infra_sentinel/metrics/store.py:539-559 | One chunk moves every selected row into its target bucket, merged, and leaves all other rows |
| MetricStore.MetricStore.CompactResolution | src/infra_sentinel/metrics/store.py:515-561 | The selected rows move to their target buckets and no others, and when none is selected the table is untouched |
| MetricStore.MetricStore.CompactFrom | src/infra_sentinel/metrics/store.py:533-561 | The chunk loop ends, meets its transactions at the stated bounds, and together moves exactly the selected rows before the cutoff |
| MetricStore.TiersSplitNoBucket | src/infra_sentinel/metrics/store.py:533-612 | In every tier of a pass, whatever the oldest row, rows of one target bucket are compacted in one chunk |
| MetricStore.MetricStore.MaintainHistory | src/infra_sentinel/metrics/store.py:563-634 | Decides whether a pass is due; a pass is the five compactions in order, and one that finds every row in its tier leaves the table untouched |
| MetricStore.MetricStore.MaintainTwice | src/infra_sentinel/metrics/store.py:563-634 | A second forced pass at the same time changes no row, in any column |
| MetricTiers.PassLeavesNone | src/infra_sentinel/metrics/store.py:576-612 | After a pass no raw row is before the hot cutoff, no quarter hour before the hourly one, no hour before the daily one, and usage rows meet their local-midnight cutoffs |
| MetricTiers.TiersAfterPass | src/infra_sentinel/metrics/store.py:576-612 | After a pass a raw row belongs to the running quarter hour, a quarter hour is at most seven days and an hour old, an hour at most ninety-one days, and of the usage rows only those of the running hour and day are left as quarter hours and hours |
| MetricTiers.TierMoves | src/infra_sentinel/metrics/store.py:576-602 | What the quarter-hour and hour compactions do with a row, in plain epochs and widths |
| MetricTiers.DayMoves | src/infra_sentinel/metrics/store.py:582-612 | Hours move under the local midnight at most a day before them, usage hours as soon as their day is over |
| MetricTiers.SecondPassChangesNothing | src/infra_sentinel/metrics/store.py:576-612 | A second pass at the same time changes no contents of the table |
| MetricTiers.PassIsARun | src/infra_sentinel/metrics/store.py:592-612 | A pass is a sequence of compaction events, so the run results apply to it |
| MetricTiers.DayRequestsSurvive | src/infra_sentinel/metrics/store.py:576-612 | Requests for whole local days up to now keep their answers through a pass when hours fit between local midnights |
| MetricTiers.HourRequestsSurvive | src/infra_sentinel/metrics/store.py:576-612 | Requests for whole hours within the retention of hours keep their answers through a pass, about usage from local midnight on |
| MetricTiers.QuarterRequestsSurvive | src/infra_sentinel/metrics/store.py:576-612 | Requests for quarter hours within their retention keep their answers through a pass, about usage from local midnight on |
| MetricTiers.HoursFitBetweenMidnightsIffAligned | src/infra_sentinel/metrics/store.py:581-612 | Hours nest into local days if and only if the day offset is a multiple of an hour |
| MetricPipeline.MetricPipeline.Ingest | src/infra_sentinel/metrics/pipeline.py:37-47 | Memory and table become those of the ingest event, also when the write fails |
| MetricPipeline.MetricPipeline.FlushCompleted | src/infra_sentinel/metrics/pipeline.py:49-66 | Completed buckets move to the table, or, after an error, are back where they were |
| MetricPipeline.MetricPipeline.FlushAll | src/infra_sentinel/metrics/pipeline.py:68-81 | All buckets move to the table, or, after an error, are back where they were |
| MetricPipeline.MetricPipeline.QueryPoints | src/infra_sentinel/metrics/pipeline.py:150-201 | Within the limits the overlay shows each bucket of the answer once, with value, count, extremes, last epoch and estimated flag; whatever the limits, every point has the metric, source, resource and instrument asked for, and within them every stored row and live bucket of the window with those fields is in one |
| MetricPipeline.OverlayIsAnswer | src/infra_sentinel/metrics/pipeline.py:180-193 | Stored points and matching live buckets merged on the requested grid are the answer over memory and table |
| MetricLimits.RestartLosesTheBuffer | src/infra_sentinel/metrics/pipeline.py:68-81 | A restart without a flush is harmless exactly when the buffer is empty |
| MetricLimits.NewestBucketGivesLastValue | src/infra_sentinel/metrics/aggregation.py:112-114 | With a unique newest bucket, merging keeps its last value whatever the order |
| MetricLimits.TwoLevelsKeepLastValue | src/infra_sentinel/metrics/aggregation.py:112-114 | Merging groups of buckets first and the results then keeps the last value of the newest bucket too |
| MetricLimits.GroupedLastValueIsTheNewestIff | src/infra_sentinel/metrics/store.py:698-723 | A grouped read shows, for the group of a row that is newest in it, that row's last value if and only if no row of the group has a greater one |
| MetricLimits.OlderLastValueIsShown | src/infra_sentinel/metrics/store.py:711 | Two quarter hours, the older with the greater last value: the hourly read shows the older value |
| DiagnosticHistory.ActiveIsTheReplayOfTheLog | src/infra_sentinel/metrics/diagnostics.py:273-328 | Over any run the full log is well formed and the active table is its replay, evictions included |
| DiagnosticHistory.NextEventOfOneDiagnostic | src/infra_sentinel/metrics/diagnostics.py:283-328 | Each diagnostic's log reads raised, changes between different severities, recovered with the last severity, and raised again only after that or an eviction |
| DiagnosticHistory.FirstEventOfOneDiagnostic | src/infra_sentinel/metrics/diagnostics.py:283-328 | The first entry about a diagnostic is raised |
| DiagnosticBounds.EveryRunStaysBounded | src/infra_sentinel/metrics/diagnostics.py:224-253 | After any run the events are the newest part of all ever emitted, in order of number and time and within 30 days; 512 active, 1024 checks and 10000 events bound the tables, and active ids are covered |
| DiagnosticBounds.EvidenceNeverFalls | src/infra_sentinel/metrics/diagnostics.py:283-291 | While a condition stays unresolved its evidence never gets older |
| DiagnosticBounds.CoverageOfOneSample | src/infra_sentinel/metrics/diagnostics.py:278-302 | After a sample every stored check says what the sample observed of it, stale evidence counted as unknown, or that it observed nothing |
| DiagnosticBounds.OldSamplesLeaveNoTrace | src/infra_sentinel/metrics/diagnostics.py:273-274 | A sample older than a committed one can be left out of any run |
| DiagnosticBounds.KeptActiveFits | src/infra_sentinel/metrics/diagnostics.py:233-240 | At most 512 conditions stay, all of them when they fit, and none evicted has newer evidence than one kept |
| DiagnosticJournal.TopSize | src/infra_sentinel/metrics/diagnostics.py:235-251 | Ordering and cutting a table keeps exactly as many rows as fit |
| DiagnosticStore.DiagnosticStore.ObserveProjection | src/infra_sentinel/metrics/diagnostics.py:273-334 | One transaction: a sample that is not older is stored as a whole or, without a commit, not at all; check by check it raises a new condition, notes a changed severity and recovers a cleared one with exactly one event each, writes nothing else, and leaves open exactly what its checks leave open, the 512 with the newest evidence if there are more |
| DiagnosticSamples.SampleWrites | src/infra_sentinel/metrics/diagnostics.py:291-327 | Each check of a stored sample writes one event if it raises, changes or recovers its condition and none otherwise, and ids outside the sample get none |
| DiagnosticSamples.SampleOpens | src/infra_sentinel/metrics/diagnostics.py:291-333 | A told severity is open afterwards with that severity and evidence, under the subject and start of the open condition if there was one; a told clear is not open; older evidence and unobserved checks leave what was |
| DiagnosticSamples.SampleIsListed | src/infra_sentinel/metrics/diagnostics.py:226-233 | The events of a stored sample end the stored list, unless they are more than it holds |
| DiagnosticSamples.SampleIsStamped | src/infra_sentinel/metrics/diagnostics.py:283-290 | A stored sample stamps the journal with its time, keeps the time of the first and notes what was cut or dropped |
| DiagnosticStore.Record | src/infra_sentinel/metrics/diagnostics.py:279-327 | The loop over the checks, reading the active table once, is the fold over single checks |
| DiagnosticStore.DiagnosticStore.QueryEvents | src/infra_sentinel/metrics/diagnostics.py:338-384 | Refuses limits outside 1 to 200 and windows that are inverted or longer than thirty days; otherwise returns, newest first, only stored events with the fields and in the window asked for, as many as the limit, and all of them unless it says there are more |
| DiagnosticChecks.Made | src/infra_sentinel/core/diagnostics.py:222-249 | Only a fresh observation with a readable timestamp counts as observed and keeps a severity |
| DiagnosticChecks.MadeIsObservedIff | src/infra_sentinel/core/diagnostics.py:222-249 | A check counts as observed exactly if it says so and its timestamp is readable, at most a minute ahead and no older than its freshness |
| DiagnosticChecks.Checks.Add | src/infra_sentinel/core/diagnostics.py:222-249 | A check is filed under its id, replacing an earlier one, unless 512 others fill the table |
| DiagnosticChecks.Checks.Rows | src/infra_sentinel/core/diagnostics.py:496 | The checks of a sample are handed on in the order in which their ids were first filed, one per id and at most 512 |
| TrafficJournal.RecoveriesAreQuiet | src/infra_sentinel/core/diagnostics.py:302-322 | Over any run with restarts anywhere, each recovery of the traffic condition was written by a realtime cycle whose raw level was quiet |
| TrafficJournal.LoudRunsRecoverNothing | src/infra_sentinel/core/diagnostics.py:302-322 | A run without such a cycle recovers nothing: pending worsening, unavailable and catch-up cycles included |
| TrafficJournal.CycleSpeaksTruly | src/infra_sentinel/app/agent.py:826-910 | Unavailable, catch-up and failing-source cycles write nothing about traffic |
| TrafficJournal.TwoCalmCyclesRecover | src/infra_sentinel/app/agent.py:243-281 | Two calm cycles in a row clear the condition from any window and any journal state |
| TrafficJournal.ConfirmedLevelIsReported | src/infra_sentinel/core/diagnostics.py:304-322 | A realtime cycle whose level is confirmed opens the condition with that severity, and writes one event if it was not open or open with another severity |
| TrafficAlerts.AlertEngine.Evaluate | src/infra_sentinel/app/agent.py:254-281 | The long window's bytes in both directions are compared with the critical limit and the busier direction of the short one with the warning limit; a transition is reported exactly when the confirmed level changes, as recovered, deescalated or an alert |
| TrafficAlerts.AlertsNeedTwoSamples | src/infra_sentinel/app/agent.py:243-281 | A level above quiet was called for by two samples in a row |
| TrafficAlerts.SecondSampleConfirms | src/infra_sentinel/app/agent.py:244-281 | The confirmed level is the last one that two samples in a row called for |
| StatusStability.PendingIsTheLastRun | src/infra_sentinel/core/status_stability.py:41-74 | The pending count is the length of the last run of identical candidates and stays below what is required |
| StatusStability.ChangesWhenTheRunIsLongEnough | src/infra_sentinel/core/status_stability.py:41-74 | The status changes exactly when that run reaches the required length |
| StatusStability.TwoStatusHysteresis | src/infra_sentinel/core/status_stability.py:41-74 | Between two statuses: bad exactly while some block of worsening samples has not been followed by a block of recovering ones |
| StatusStability.StatusStabilizer.Observe | src/infra_sentinel/core/status_stability.py:41-74 | The three fields and the decision are those of the observation function |
| CollectorRuns.ErrorIsPublishedWhileDown | src/infra_sentinel/core/collectors.py:141-209 | An error is published exactly while three failures in a row have not been followed by two successes in a row |
| CollectorRuns.PointsAreLostWhileDown | src/infra_sentinel/core/collectors.py:190-207 | The points of a successful collection are dropped exactly while the collector counts as down, so the first success after an error publishes none |
| CollectorRuns.SlotRemembersLastSuccess | src/infra_sentinel/core/collectors.py:160-166 | What a failing collector falls back on is its last success published as such |
| CollectorRuns.FailuresRepeatTheLastSuccess | src/infra_sentinel/core/collectors.py:148-166 | A failure that does not count as down repeats it without points, or waits when there is none |
| CollectorRuns.CollectorRegistry.Collect | src/infra_sentinel/core/collectors.py:141-209 | Every collector runs once and its slot and publication depend on its own outcomes only |
| CollectorRuns.CollectorRegistry.Register | src/infra_sentinel/core/collectors.py:124-136 | Refuses incomplete capabilities and duplicate ids |
| UsageWindows.ResolvedIntervals | ui/src/ai_usage_series.ts:204-275 | Source by source the resolved rows are the past ones, then the resolved day of a declared source or today's rows of another one; a source shows its past plus what it declares |
| UsageWindows.DayOf | ui/src/ai_usage_series.ts:234-271 | In a daily view the declared tokens and models at the start of the day; otherwise the accepted rows of today, with the missing tail unattributed on the anchor row |
| UsageWindows.CandidatesAreTodaysRows | ui/src/ai_usage_series.ts:246-253 | A day is resolved from all of the source's rows of today from its start on -- from midnight if its rows come by the hour or it names no start -- each as often as it occurs, by epoch and then in the order they came in |
| UsageWindows.DayKeepsAcceptedRows | ui/src/ai_usage_series.ts:254-270 | Off the anchor a resolved day shows exactly the accepted rows, as they were |
| UsageWindows.CoveredRowsAreAccepted | ui/src/ai_usage_series.ts:256-267 | A declaration that covers today's rows keeps all of them that are not empty |
| UsageWindows.AnchorHoldsTheStart | ui/src/ai_usage_series.ts:269 | The anchor is the bucket in which the declared day, or else the window, starts |
| UsageWindows.DailyViewShowsDeclaration | ui/src/ai_usage_series.ts:239-248 | In a daily view a declared day is one row at its start with the declared tokens and models |
| UsageWindows.ResolveDay | ui/src/ai_usage_series.ts:246-272 | The accepted rows and the residual sum exactly to the declaration |
| UsageWindows.GreedyAcceptance | ui/src/ai_usage_series.ts:254-267 | No accepted prefix exceeds the declaration, and a non-empty row is dropped only when it would |
| UsageWindows.SortedIsInOrder | ui/src/ai_usage_series.ts:253 | The candidates are rearranged in order of their epochs |
| UsageWindows.AddResidual | ui/src/ai_usage_series.ts:169-194 | The anchor row, found or new, gains exactly what is missing and keeps its models adding up |
| UsageSeries.AddNormalizedModels | ui/src/ai_usage_series.ts:150-167 | The destination grows by exactly the authoritative total, each model by its scaled floor |
| UsageSeries.ScaledFits | ui/src/ai_usage_series.ts:155-166 | Scaling never exceeds the total and falls short by less than the number of models |
| UsageSeries.NormalizedRow | ui/src/ai_usage_series.ts:44-53 | A row's models add up to its total if and only if no share under the reserved name is overwritten |
| UsageSeries.GroupsAddUp | ui/src/ai_usage_series.ts:28-43 | Each slot's total and models hold the sums of its unmodelled and modelled points |
| UsageSeries.GroupsKeepModels | ui/src/ai_usage_series.ts:30-43 | Each slot attributes to a model what the points that name it add up to |
| UsageSeries.RawIntervals | ui/src/ai_usage_series.ts:28-54 | One row per slot with the authoritative total, balanced exactly when no share under the reserved name is overwritten, so always when no point uses that name |
| UsageSeries.ReservedNameUnbalances | ui/src/ai_usage_series.ts:44-53 | Three points under the reserved name, a model and none, whose row names one token too few |
| UsageTotals.TotalsForProviderWindow | ui/src/ai_usage_series.ts:277-317 | Model totals and source totals of a window agree, declared sources show their declaration and others their rows, and every model has its scaled shares of the declarations plus what the rows of the other sources hold for it |
| UsageTotals.ProjectUsage | ui/src/ai_usage_series.ts:340-362 | Model and source totals agree, and dated plus undated cover the selected total |
| WireReader.FieldsRoundTrip | src/infra_sentinel/resources/ai/antigravity.py:126-160 | The reader undoes the encoder for any list of valid varint, fixed-width and length-delimited fields |
| WireReader.VarintsBelow70BitsRoundTrip | src/infra_sentinel/resources/ai/antigravity.py:114-124 | A varint is read back if and only if it is below 2^70, so all 64-bit values are |
| WireReader.LookupFindsTheFirst | src/infra_sentinel/resources/ai/antigravity.py:163-174 | A lookup in an encoded message finds the first matching field |
| WireReader.ProtoReader.ReadVarint | src/infra_sentinel/resources/ai/antigravity.py:114-124 | The shifting loop computes the little-endian groups of seven bits and consumes exactly them |
| WireReader.ProtoReader.Fields | src/infra_sentinel/resources/ai/antigravity.py:126-160 | On arbitrary bytes the reader ends within bounds with the fields up to the first unreadable one |
| DshSessions.FoldMeetsItsMeaning | src/infra_sentinel/resources/ai/dsh.py:145-244 | The fold yields one request per turn, step and attempt, holding the last report and settled exactly when that is final or something closing followed |
| DshSessions.ReadSession | src/infra_sentinel/resources/ai/dsh.py:172-244 | A log is folded whole or, on any unreadable, unordered or malformed record, not at all |
| DshSessions.EffectiveIffSound | src/infra_sentinel/resources/ai/dsh.py:172-190 | A log is read exactly if its rows are numbered upwards and none of its own is malformed, and then counts all of its own rows in order |
| DshUsage.NoMarkerIsEmittedTwice | src/infra_sentinel/resources/ai/dsh.py:305-325 | Over all polls, failed checkpoint writes, crashes and restarts each marker emits at most one point, unless a restart forgets a lost checkpoint |
| DshUsage.OnlySettledRequestsAreEmitted | src/infra_sentinel/resources/ai/dsh.py:309-319 | Whatever is emitted had been reported settled |
| DshUsage.EmittedIffDelivered | src/infra_sentinel/resources/ai/dsh.py:305-325 | A point is emitted exactly when a delivered poll after the first kept one finds its request settled with tokens, and no kept poll before it had |
| DshUsage.DshUsageCollector.Collect | src/infra_sentinel/resources/ai/dsh.py:305-325 | The poll loop is the poll step |
| DshCounts.EmittedCount | src/infra_sentinel/resources/ai/dsh.py:305-325 | An emitted count is that of the last report under its marker that the delivering poll had read, which had found it settled |
| DshCounts.EmittedCountIsFinalIff | src/infra_sentinel/resources/ai/dsh.py:197-244 | Over polls of a growing log it is the count of the last report of the whole log if and only if no report under the marker came after that poll or the last of them has the same total |
| DshCounts.ReopenedCountIsLost | src/infra_sentinel/resources/ai/dsh.py:197-244 | A report, an end and another report of the same placement, with a poll between them: the first count is emitted and the later one never |
| DshUsage.ComesBackIff | src/infra_sentinel/resources/ai/dsh.py:259-325 | After a restart without a checkpoint the emissions are those of a fresh start, so a request comes back exactly when a later poll delivers it anew: not if the first kept poll shows it settled |
| DshUsage.LostCheckpointEmitsTwice | src/infra_sentinel/resources/ai/dsh.py:259-325 | A run with a lost checkpoint that emits one request twice |
| UsageReceipts.RecordCountsOnce | src/infra_sentinel/metrics/usage_receipts.py:87-114 | Recording adds a receipt's tokens exactly when its hash is new, never changes a stored receipt, and refuses a different receipt under a known hash |
| UsageReceipts.FairReceiptsAreRecorded | src/infra_sentinel/metrics/usage_receipts.py:36-63 | A receipt is recorded exactly if it is of the allowed form, dated from the year 2000 to five minutes ahead, has counts up to a trillion that add up, and a new hash; under a known hash it is a duplicate exactly if it is what is stored |
| UsageReceipts.RecordIsIdempotent | src/infra_sentinel/metrics/usage_receipts.py:103-107 | Recording again is answered as a duplicate and changes nothing |
| UsageReceipts.ConflictingReuseIsRefused | src/infra_sentinel/metrics/usage_receipts.py:103-107 | Using a hash again for other counts, another time, client, model or basis is refused and changes nothing |
| UsageReceipts.UsageReceiptStore.Record | src/infra_sentinel/metrics/usage_receipts.py:87-114 | The stored table and the answer are those of the recording function |
| CommandProtocol.NoCommandDisappears | src/infra_sentinel/app/protocol.py:117-171 | Over any interleaving of submissions, claims, crashes and restarts by any threads a submitted command still waits or a result has been written, and an accepted receipt is in the ledger as submitted |
| CommandProtocol.RecordedOnceForAll | src/infra_sentinel/app/agent.py:717-729 | A recorded event keeps its one row whatever happens later, so retries never add tokens again |
| CommandProtocol.WaitingCommandsCanFinish | src/infra_sentinel/app/protocol.py:129-171 | From any reachable state a restart and one pass bring a waiting command to the result it deserves: a receipt is accepted, and then in the ledger, exactly if it is fair and new or stored already |
| CommandProtocol.SubmissionWaits | src/infra_sentinel/cli/usage_receipts.py:19-30 | A command submitted under a free name waits |

## Left out

- SQLite, file systems, JSON and TOML text: tables are maps, renames and transactions are atomic steps, payloads are datatypes; a transaction that may fail takes a flag.
- Hashes, UUID text, timestamps and time zones: identifiers are injective markers, epochs are integers, local midnight and the day of an epoch are parameters.
- Floating point: metric values are reals and scales are exact fractions.
- CodexParser.RolloutParser.ConsumeRecord: the parser keeps its fields in one record, and turn timings and their backfill, hour rows and file modification times are not modelled.
- CodexReplay.PollingDoesNotMatter: the daily totals of several files are compared only where their first claims under one key agree, because keys omit the last usage; per-model splits past 128 models depend on the order of the files.
- CodexLineage.RetryCountsNothingIff: is stated for ledgers that hold no key under the marker of a missing session, which only an earlier retry of this kind inserts.
- Discovery and sorting of rollout files: candidates and their order are inputs; the scope kept when a file has no session of its own is not reached by the parser.
- CodexService.CodexRolloutLedger.AddIncrement: day rows are values in a map, not shared objects.
- MetricPipeline.MetricPipeline.QueryPoints: promises the answer only while groups and buckets fit the limit and the window starts at or above the grid offset; the order of the points, last_value, confidence and attribution are not part of the answer.
- MetricStore.MetricStore.MaintainHistory: the reported row counts, the legacy imports and migrations are not modelled, nor are columns left NULL by older schemas.
- MetricStore.MetricStore.CompactResolution: source and target resolution differ, as they do for every tier.
- MetricEngine.AnswersAreDirect: values of series that are neither counters nor gauges are not compared.
- DiagnosticStore.DiagnosticStore.QueryEvents: active conditions, coverage freshness and wording are not part of the answer.
- DiagnosticChecks.Checks.Add: the normalizers of the source, system, facility and upstream families are represented by the checks they produce; only the traffic check is derived from its inputs.
- Snapshots, notifications, billing guards and the byte windows behind the raw traffic level: inputs of `TrafficAlerts.AlertEngine.Evaluate`.
- UsageWindows.ResolvedIntervals: the final ordering of rows and the parsing of provider histories are left out; their rows are inputs.
- DshSessions.FoldMeetsItsMeaning: stream performance samples are left out, and so is the choice between copies of one session.
- WireReader.ProtoReader.Fields: the generator is a list of all it yields.
- UsageReceipts.UsageReceiptStore.Record: the syntax of fields and identifiers is one flag, and the grouped summaries are left out.
- CommandProtocol.NoCommandDisappears: commands have fresh identifiers, as the desktop generates them, and kinds other than receipts stand for work outside this model; removal of expired results is left out.
- Collectors, network clients, pricing, configuration and all rendering.
