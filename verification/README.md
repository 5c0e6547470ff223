# A model of coinpilot's protocols and engines

This project models the parts of coinpilot whose correctness is not visible from any one function: the crash-safe
archive of public market data, the shadow trading account and its restarts, order replay against visible depth, the
streaming feature builder, walk-forward prediction, the accounting simulators and the bundle commit marker. Each module
states what the code does and proves what its design promises, for every input, every run and every crash point.

| module | what it models |
|---|---|
| Envelopes, AuditJournal | archive envelopes, running totals, and the write-ahead journal's bytes |
| ArchiveProtocol, ArchiveRecovery, ArchiveWriter | one partition's two-file commit and recovery as a transition system, its runs, and the code that drives it |
| ArchiveQuarantine | what recovery keeps of the files it finds in its way |
| JournalRefinement, ArchiveHistory | the journal's bytes behind the protocol's journal; whole recording histories |
| Media | whether operations keep their order across directories |
| VisibleDepth, Books, ReplayIndex | the depth sweep, books, and the bisecting replay index |
| ShadowAccount, ShadowSafety, ShadowTiming | the shadow engine, what its transactions keep, and when orders fill |
| ShadowRules | which intents become orders, and what fills, marks, breaks and recovery sales mean |
| ShadowLedger | the run ledger and chains of restarts |
| RecordStream, FillAgreement | continuity marks on their way to books; online against offline fills |
| FeatureSpec, FeatureBuilder, OnlineSignal | naive features, the streaming builder, and the online signal |
| FeatureMeaning | what a feature row says, read off the archive itself |
| WalkForward, WalkMeaning | walk-forward prediction; which rows its fits use and what they can and cannot depend on |
| RankAuc | the rank formula for the area under the curve |
| ReplaySimulator, Brokerage, BarEngine, PaperEngine | the accounting simulators |
| ReplayMeaning, BarMeaning, PaperMeaning | why they trade, when and at what price |
| CommitMarker, CommitRollback | bundle promotion and its completion marker; what a rolled back promotion leaves |

Classes and loops stand where the code updates objects, files and rows in place; each such method is proved equal to a
specification function, and lemmas about that function carry the promises; the modules named after meaning say what it
computes in terms of its input alone. Prices, sizes and cash are exact reals, with the code's own tolerances kept as
parameters; ordinals, indices and nanoseconds are integers.

## Assumptions

- Directory operations are atomic, and each directory's reach the medium in order: a power loss brings a directory back as
  it was at some point since its last sync. The archive protocol and the commit marker are treated both where that order
  also holds across directories and where each falls back by itself. Unsynced bytes survive as a prefix in a journal and
  as anything elsewhere.
- Staged files are durable before the bundle lock is taken: their writers sync them first.
- Hashes and canonical encodings are injective; gzip is the identity on lines.
- Each SQLite transaction is one atomic step. Market data has passed the code's field validation.
- Book value and restart results assume strictly increasing run start times and one runner per market.

## Findings

- Recovery that finds a matching bundle drops the journal without syncing the bundle's directory. If the recorder was
  killed between the data file's promotion and its sync, a power loss on a medium without order across directories can
  then take both away, leaving a staging file no recovery reads: `ArchiveRecovery.AdoptingIsSafeExactly` says exactly when,
  `ArchiveRecovery.PromotionIsExposed` that every such kill qualifies. With that order no history loses anything.
- The same holds for the quarantine: a recovery syncs it only when it moved something itself. Killed between its last move
  and that sync, and repeated, it can make the moves' sources durable and lose the moved files to a power loss without order
  across directories (`ArchiveQuarantine.ShelfSurvivesExactly`, `ArchiveQuarantine.MovedIsExposed`).
- An overwriting writer that finds no marker does not sync its directory. If an earlier writer was killed between removing
  the marker and that sync, a power loss without order across directories can bring the old marker back beside a new
  member in another directory (`CommitMarker.OverwritingIsSafeExactly`, `CommitMarker.KilledRemovalExposes`).
- A no-overwrite promotion stopped after linking a file and before recording it, or while removing staging names, or whose
  rollback fails to remove a file, which is ignored, leaves files behind: `CommitRollback.RollbackLeaves` says exactly
  which, with three concrete cases beside it. The marker's promise is not affected.
- A halt cannot be placed again for the same reason at another time, not even after a break lifted it: the notice collides
  and the halt is rolled back (`ShadowTiming.HaltsOncePerReason`).
- A continuity break replaces whatever halt reason is set, external halts included: `ShadowTiming.HaltHoldsUntilBreak`
  says exactly when such a halt holds, `ShadowTiming.BreakLiftsHalt` shows one lifted. Halting also revives a stopped run,
  as `ShadowTiming.HaltRevives` states.
- Online and offline fills differ when a book of another capture or connection arrives between decision and fill: the
  engine loses the order at the change, the index follows the capture's ordinals. `FillAgreement.FillsAgree` gives the
  exact condition, `FillAgreement.OtherCaptureParts` and `FillAgreement.OtherConnectionParts` concrete cases, and
  `FillAgreement.StrayStops` one the other way round.
- The service replaces a book's own marks by those of intervening trades; whether the feed counts as broken is unaffected,
  the recorded reason may be (`RecordStream.BooksAgree`, concretely `RecordStream.OwnReasonReplaced`).
- The online signal forgets trade ids with the window while the builder remembers them for the segment;
  `OnlineSignal.WindowsAgree` gives the exact condition under which that does not matter, `OnlineSignal.ForgottenId` a case
  where it does.
- The rank formula departs from the Mann-Whitney fraction when labels other than zero and one occur among the targets and
  a positive beats or ties one (`RankAuc.AucIsMannWhitney`, concretely `RankAuc.NeitherCounts`).
- The label-time filter of a walk-forward refit never removes a row: purging already did (`WalkForward.PurgeSettles`).

## Model

| member | source | states |
|---|---|---|
| Envelopes.TotalsMeaning | src/coinpilot/hft_archive.py:441-458 | after any list of envelopes the running totals are the record count, first and last stamp, trade and book counts, gap count and connection set of that list |
| Envelopes.WriterAgreesWithScan | src/coinpilot/hft_audit_journal.py:440-535 | the live writer and the journal scan, which start their event counters differently, agree on every total when counts are read with default zero |
| AuditJournal.ScanJournal | src/coinpilot/hft_audit_journal.py:440-535 | the scanning loop returns header, valid end, totals and tail flag exactly as the recursive meaning of a journal says |
| AuditJournal.ScanOfPrinted | src/coinpilot/hft_audit_journal.py:400-552 | scanning a printed header and frames followed by any newline-free tail gives back exactly those payloads, the right valid end and the right tail flag |
| AuditJournal.ScanAfterTornAppend | src/coinpilot/hft_audit_journal.py:339-360 | cut anywhere in one more frame, the scan returns all complete frames, and the last only when every byte of it survived |
| AuditJournal.ScanSound | src/coinpilot/hft_audit_journal.py:440-552 | whatever bytes a scan accepts: its payloads are acceptable envelopes with contiguous ordinals, its totals are theirs, and only a newline-free tail follows |
| AuditJournal.WriteAll | src/coinpilot/hft_audit_journal.py:65-78 | short writes are continued until the whole payload is appended; a write that returns nothing leaves a prefix and fails |
| AuditJournal.DurableAuditJournal.AppendDurable | src/coinpilot/hft_audit_journal.py:339-360 | an envelope is acknowledged only once its whole frame is durable; a failed append leaves the acknowledged list alone |
| AuditJournal.DurableAuditJournal.CrashImageRecovers | src/coinpilot/hft_audit_journal.py:339-360 | whatever prefix of the unsynced bytes survives, recovery reads every acknowledged envelope in order and at most the one whose append failed |
| ArchiveProtocol.StepKeepsInv | src/coinpilot/hft_archive.py:419-617 | no operation of open, write, finalize, unwind, abort or recovery, and no kill or power loss between two of them, breaks the protocol invariant |
| ArchiveProtocol.AdvanceFinalizingManifest | src/coinpilot/hft_archive.py:556-565 | the manifest is promoted and synced first: up to then no directory image that may come back shows a data file, and none lacks the journal |
| ArchiveProtocol.AdvanceFinalizingData | src/coinpilot/hft_archive.py:566-569 | promoting the data file last commits a bundle its manifest verifies while the journal still stands, and after the sync every image that may come back holds that bundle |
| ArchiveProtocol.AdvanceFinalizingJournal | src/coinpilot/hft_archive.py:592-595 | the journal goes only when every image that may come back holds the bundle |
| ArchiveProtocol.AdvanceRepairingJournal | src/coinpilot/hft_audit_journal.py:800-821 | recovery drops the journal only when every image that may come back holds a bundle of exactly its frames |
| ArchiveProtocol.PowerLossIsSafe | src/coinpilot/hft_archive.py:221-239 | whatever a power loss brings back keeps the invariant, each directory falling back to its own point since its own last sync, or all to one point on a medium that keeps order across directories |
| ArchiveProtocol.ConsumedIsRestorable | src/coinpilot/hft_archive.py:419-467 | on every such image what the consumer saw is a prefix of what can be restored, which is at most one envelope longer, and a visible data file has its manifest |
| ArchiveRecovery.RecoveryConverges | src/coinpilot/hft_audit_journal.py:728-821 | however often recovery is cut short, once the journal is gone the bundle holds exactly its complete frames; frames durable at the start are never lost |
| ArchiveRecovery.SettledStays | src/coinpilot/hft_audit_journal.py:565-601 | once the bundle matches the journal, any run of recoveries, cut short or not, keeps the very same data file and manifest on every image that may come back |
| ArchiveWriter.ArchivePartition.Write | src/coinpilot/hft_archive.py:419-467 | one write ends with the envelope buffered, framed and durable, and not yet delivered |
| ArchiveWriter.ArchivePartition.Consume | src/coinpilot/hft_archive.py:1201-1229 | the consumer is handed an envelope only when its frame is durable |
| ArchiveWriter.ArchivePartition.Finalize | src/coinpilot/hft_archive.py:480-617 | commits exactly the buffered lines under a manifest whose every total is theirs; an exception up to the second directory sync unwinds the bundle, so that neither staging nor final names remain, and keeps the journal; a later one finds it committed; the quarantine is not touched |
| ArchiveWriter.ArchivePartition.RecoverOne | src/coinpilot/hft_audit_journal.py:728-821 | one undisturbed recovery removes the journal and leaves its frames committed on every image that may come back; what it found in its way, and the journal where it held nothing or was rebuilt from a torn one, ends up in the quarantine, in order and unchanged |
| ArchiveWriter.FailedOpeningLeavesNothing | src/coinpilot/hft_archive.py:360-392 | a writer whose construction raises at any operation leaves neither staging file nor journal |
| ArchiveWriter.AbortingLeaves | src/coinpilot/hft_archive.py:601-617 | an aborted writer leaves neither of its staging files, and touches nothing else |
| ArchiveQuarantine.ShelfGrows | src/coinpilot/hft_audit_journal.py:603-636 | short of a power loss nothing ever leaves the quarantine, whoever works on the partition |
| ArchiveQuarantine.EvidenceStays | src/coinpilot/hft_audit_journal.py:603-636 | however recovery runs, fails, is killed and starts again, every file it found is in its place or in the quarantine |
| ArchiveQuarantine.EvidenceSurvives | src/coinpilot/hft_audit_journal.py:631-635 | with order across directories the same holds through any number of power losses, on every image that may come back, for files that were durable |
| ArchiveQuarantine.EmptyJournalStays | src/coinpilot/hft_audit_journal.py:729-743 | a journal without header or frames is, over every such run, in its directory or a new entry of the quarantine |
| ArchiveQuarantine.AdoptsExactly | src/coinpilot/hft_audit_journal.py:565-601 | whatever lies in the directory, a bundle counts as committed exactly when its data file is the frames and its manifest names their digest and number |
| ArchiveQuarantine.RecoveryLeaves | src/coinpilot/hft_audit_journal.py:728-821 | the three directories after an undisturbed recovery, whatever they held: which files are moved, in which order, which are rebuilt and which stay |
| ArchiveQuarantine.ShelfSurvivesExactly | src/coinpilot/hft_audit_journal.py:631-635 | all moved files are in the quarantine after every later power loss if and only if directories keep their order, or this recovery moves something itself, or the quarantine was durable already |
| ArchiveQuarantine.MovedIsExposed | src/coinpilot/hft_audit_journal.py:629-635 | without that order, a rebuild killed between its last move and its sync of the quarantine, and then repeated, can lose every file it had moved |
| ArchiveRecovery.AdoptingIsSafeExactly | src/coinpilot/hft_audit_journal.py:768-787 | where directories fall back independently, recovery of a bundle found in place keeps its envelopes through every later power loss if and only if the bundle was durable already or a leftover file made the quarantine sync its directory |
| ArchiveRecovery.PromotionIsExposed | src/coinpilot/hft_archive.py:566-569 | every finalization killed between the data file's promotion and its sync fails that condition: after recovery a power loss can leave neither journal nor data file |
| JournalRefinement.RecoveryReads | src/coinpilot/hft_audit_journal.py:440-552 | the byte scan tells recovery exactly the frames, totals and torn flag of the protocol's journal |
| JournalRefinement.PowerLossRefines | src/coinpilot/hft_audit_journal.py:339-360 | any surviving prefix of the unsynced bytes, over any number of frames, is the journal after one of the protocol's power losses |
| JournalRefinement.AppendRefines | src/coinpilot/hft_audit_journal.py:339-360 | writing part of a frame, all of it, and syncing are the protocol's three steps of a write |
| JournalRefinement.LiveJournalRefines | src/coinpilot/hft_audit_journal.py:246-380 | the live journal object stands for a protocol journal in which everything acknowledged is durable |
| ArchiveHistory.AuditGuarantee | src/coinpilot/hft_archive.py:885-1229 | over whole histories of partitions, processes, kills, power losses and recoveries: the consumer log is, in order, prefixes of what each partition can restore, each at most one envelope ahead; without restriction on a medium that keeps order across directories, else for recoveries meeting the condition of AdoptingIsSafeExactly |
| VisibleDepth.SweepVisibleDepth | src/coinpilot/hft_depth.py:759-875 | the level loop computes the execution that VisibleDepth.ReportMeaning, FillIsGreedy and SweepAccounts describe, and fills something of every valid request |
| VisibleDepth.ReportMeaning | src/coinpilot/hft_depth.py:838-875 | of every valid request: the fee is the fee rate of the quote traded, the cash flow is the quote and the fee, the average price times the base is the quote, slippage is their distance from the best price, and the levels counted are those something was taken from |
| VisibleDepth.ShortfallIsTiny | src/coinpilot/hft_depth.py:809-815 | a full fill falls short of its request by no more than the larger of the absolute and the relative tolerance |
| VisibleDepth.FillIsGreedy | src/coinpilot/hft_depth.py:790-820 | the sweep exhausts better levels before it touches the next one |
| VisibleDepth.SweepIsOptimal | src/coinpilot/hft_depth.py:786-843 | no allocation of the filled base within the displayed sizes buys cheaper or sells dearer |
| VisibleDepth.SweepConserves | src/coinpilot/hft_depth.py:786-843 | filled and unfilled add up to the request within the snap tolerance, never beyond it |
| VisibleDepth.SweepAccounts | src/coinpilot/hft_depth.py:786-875 | a partial fill means every level is exhausted; a full fill happens exactly when what all levels could not provide is within the tolerance |
| VisibleDepth.VwapNeverImproves | src/coinpilot/hft_depth.py:821-843 | the average price of a larger request is never better than that of a smaller one |
| VisibleDepth.SlippageIsAdverse | src/coinpilot/hft_depth.py:821-843 | slippage against the best displayed price is never negative |
| ReplayIndex.BuildIndex | src/coinpilot/hft_depth.py:894-974 | one pass cuts the books into runs at exactly the boundaries, with end reasons and every decision book located |
| ReplayIndex.BisectLeft | src/coinpilot/hft_depth.py:994-997 | first position not before the due time in a sorted run |
| ReplayIndex.Select | src/coinpilot/hft_depth.py:976-1007 | answers exactly as a plain forward walk from the decision book; the fault for a book before the due time cannot arise |
| FillAgreement.ReplayOrders | src/coinpilot/hft_depth.py:1034-1079 | each order is executed on the book the forward walk selects, or reported with the walk's reason |
| ShadowAccount.ShadowEngine.ProcessBook | src/coinpilot/hft_shadow.py:316-560 | the step-by-step update of the row is the specified transaction; errors roll it back |
| ShadowAccount.ShadowEngine.ResolvePending | src/coinpilot/hft_shadow.py:785-900 | the pending order expires on another connection or when too late, waits when early, and is otherwise executed into cash, base, average cost, realized profit and fees |
| ShadowAccount.ShadowEngine.Halt | src/coinpilot/hft_shadow.py:712-768 | a halt expires the pending order and sets the halted lifecycle whatever it was, unless the run already has a different notice for that reason: then it is rolled back |
| ShadowAccount.ShadowEngine.Stop | src/coinpilot/hft_shadow_store.py:1017-1076 | a stop expires the pending order and keeps a latched halt reason |
| ShadowSafety.ReservedSuffices | src/coinpilot/hft_shadow.py:1013-1047 | an order whose funds were reserved never takes more cash or base than is there, up to epsilon, whatever the book shows |
| ShadowSafety.StepKeepsRun | src/coinpilot/hft_shadow.py:316-560 | every transaction keeps cash, base and average cost non-negative and the single pending order funded, never lowers peak or worst drawdown, keeps drawdown in [0,1], and never reports reserved cash or position exceeded |
| ShadowSafety.LiquidationResolves | src/coinpilot/hft_shadow.py:405-455 | a recovery sale is accepted and resolved by the book that creates it; it fails only when that book already carries a decision |
| ShadowSafety.ReplayConserves | src/coinpilot/hft_shadow.py:859-900 | book value after any fills is the value before plus what clamping moved; fees are the sum over the fills |
| ShadowSafety.ClampedIsSmall | src/coinpilot/hft_shadow.py:859-897 | clamping moves at most epsilon of cash on a buy and epsilon of base at cost on a sale, and nothing when amounts stay clear of epsilon |
| ShadowSafety.StepAccounted | src/coinpilot/hft_shadow.py:859-900 | no transaction touches the account except through a fill it records |
| ShadowRules.AdmittedExactly | src/coinpilot/hft_shadow.py:1013-1047 | an intent becomes the pending order if and only if the run is running with nothing pending, a buy is within the order limit, meets the one-position rule and is paid for with its fee, and a sale is covered by the position |
| ShadowRules.TurnedAway | src/coinpilot/hft_shadow.py:1013-1047 | every other intent leaves account and orders alone and is recorded with a reason that holds |
| ShadowRules.EveryOrderRuled | src/coinpilot/hft_shadow.py:1013-1047 | over every history: each buy, pending or filled, asks for no more than the order limit, and under the one-position rule the fills before it leave at most epsilon of base |
| ShadowRules.FillMeaning | src/coinpilot/hft_shadow.py:859-900 | a buy averages its cost with the fee into the position, a sale realizes its proceeds after the fee less the average cost of what it sold; fees add up |
| ShadowRules.StepMarksEquity | src/coinpilot/hft_shadow.py:516-560 | after every book the equity is cash plus what the visible bids pay for the position after the fee, the peak the highest so far and the drawdown the worst share lost from a peak |
| ShadowRules.BreakMeaning | src/coinpilot/hft_shadow.py:353-400 | a break expires the pending order, touches neither account nor fills, restarts warmup of a flat run and halts one with a position |
| ShadowRules.RecoversExactly | src/coinpilot/hft_shadow.py:405-455 | a halted run with a position sells all of it into the next unbroken book exactly when that position is what halted it |
| ShadowRules.Redelivery | src/coinpilot/hft_shadow.py:330-352 | a committed book delivered again changes nothing: the same intent is recognized, another one refused |
| ShadowTiming.EveryHistory | src/coinpilot/hft_shadow.py:353-505 | over every history of books, intents, halts and stops: every ordinary fill lands on the first processed book at or after decision plus latency, at most the allowed gap late, on the decision's connection with no break in between, and every accepted order had a full warmup behind it |
| ShadowTiming.NeverOnItsOwnBook | src/coinpilot/hft_shadow.py:400-505 | an ordinary order never fills on the book that decided it, even without latency; recovery orders always do |
| ShadowTiming.NoBreakWithin | src/coinpilot/hft_shadow.py:1327-1341 | books are marked broken exactly when the feed was broken before them |
| ShadowTiming.HaltHoldsUntilBreak | src/coinpilot/hft_shadow.py:360-374 | an external halt holds through a book if and only if no continuity break precedes it |
| ShadowTiming.BreakLiftsHalt | src/coinpilot/hft_shadow.py:360-374 | any book marked as a regression returns a freshly halted flat run to warmup |
| ShadowTiming.HaltRevives | src/coinpilot/hft_shadow.py:712-768 | halting a stopped run makes it process books again, and fails exactly on a different notice for its reason |
| ShadowTiming.HaltsOncePerReason | src/coinpilot/hft_shadow_store.py:452-508 | once a halt took effect no history, breaks that lift it included, lets a halt for the same reason at another time take effect |
| ShadowLedger.Predecessor | src/coinpilot/hft_shadow_store.py:577-594 | the recoverable run of the market with the latest start, if any; of equal starts, which the query leaves open, the earlier row |
| ShadowLedger.ContinuesLatest | src/coinpilot/hft_shadow_store.py:577-594 | a new run continues the market's latest run if and only if no earlier recoverable run started as late |
| ShadowLedger.ShadowStore.StartRun | src/coinpilot/hft_shadow_store.py:510-741 | idempotent by id; expires the predecessor's order, interrupts it when live and carries account and equity marks over |
| ShadowLedger.ShadowStore.StopRun | src/coinpilot/hft_shadow_store.py:1017-1076 | stopping keeps the account for the next run |
| ShadowLedger.RestartNeedsRecovery | src/coinpilot/hft_shadow_store.py:667-700 | a restart begins in warmup exactly when unlatched, under the same fingerprint and flat, and otherwise halted with the reason that applies |
| ShadowLedger.LatchSurvives | src/coinpilot/hft_shadow_store.py:667-700 | over any sequence of stops, crashes, restarts and books without a break, and anything on other markets, a latched halt and the account stay and every run started meanwhile starts halted for that reason |
| ShadowLedger.EventKeeps | src/coinpilot/hft_shadow_store.py:510-741 | starts and transactions keep every run linked to the market's run before it, with that run's final account |
| ShadowLedger.BookValueIsConserved | src/coinpilot/hft_shadow_store.py:577-741 | over whole chains of fills, expiries, recovery sales, halts, stops, crashes and restarts, book value is the first run's cash plus what clamping moved, and fees are the fee rates of the quote each run traded |
| ShadowLedger.RunFees | src/coinpilot/hft_shadow.py:859-900 | the fees of a run are the fee rate of the quote its fills traded, on top of what it carried over |
| ShadowLedger.StartingAgain | src/coinpilot/hft_shadow_store.py:510-575 | over every ledger: a known id starts nothing, and is accepted exactly when configuration and code are the same |
| FillAgreement.EngineFollows | src/coinpilot/hft_shadow.py:785-857 | over any accepted stream, whatever its ordinals, the engine keeps, loses or fills a pending order exactly as its decision-to-fill path says, and never twice |
| FillAgreement.OfflineExactly | src/coinpilot/hft_depth.py:899-1007 | whatever order books arrived in, the replay selects book j if and only if by ordinal it is the first due of the capture behind the decision, with no boundary from one ordinal to the next |
| FillAgreement.FillsAgree | src/coinpilot/hft_shadow.py:785-857 | where the replay fills an accepted order the engine fills it identically if and only if that book arrived after the decision and all in between are of its capture and connection; conversely, with no stray of the capture between by ordinal, if and only if no consecutive gap is too wide; with strays, exactly where the ordinals lead |
| FillAgreement.RecordsAgree | src/coinpilot/hft_depth.py:459-596 | over one recorder's records, through the service's and the loader's own handling of trade marks: what the replay fills the engine filled, and conversely if and only if no consecutive gap is too wide |
| FillAgreement.OtherCaptureParts | src/coinpilot/hft_shadow.py:1327-1341 | three concrete books, one of another capture, where the replay fills and the engine does not |
| FillAgreement.OtherConnectionParts | src/coinpilot/hft_shadow.py:1302-1341 | the same with a book of the same capture on another connection and with an earlier ordinal, which the engine accepts |
| FillAgreement.StrayStops | src/coinpilot/hft_depth.py:899-1007 | three concrete books where the engine's path fills and a book that arrived before the decision stops the replay |
| RecordStream.Consumer.Consume | src/coinpilot/shadow_service.py:714-744 | trade marks are carried to the next book, where they replace its own |
| RecordStream.ConsumeAll | src/coinpilot/shadow_service.py:714-744 | a whole stream hands on exactly the specified books |
| RecordStream.LoadBooks | src/coinpilot/hft_depth.py:509-566 | the loader's per-capture maps yield exactly the specified books |
| RecordStream.BooksAgree | src/coinpilot/hft_depth.py:509-566 | loader and service mark the same books unless an ordinal was skipped, and give equal marks if and only if intervening marks cover the book's own |
| RecordStream.OwnReasonReplaced | src/coinpilot/shadow_service.py:714-744 | two concrete records where service and loader give the same book different gap reasons |
| FeatureSpec.OneRowPerBook | src/coinpilot/hft_features.py:690-891 | every valid book has exactly one row, in arrival order |
| FeatureMeaning.RowMeaning | src/coinpilot/hft_features.py:690-883 | every row is the book it names, in an unbroken stretch of records that ends for the reason given; its sums are those of the first copies of trades in the window before it; a valid label is the first later book of the stretch to reach the horizon, within the overshoot, and the return is what the mid must grow by to become that book's; an invalid one says why there is none |
| FeatureMeaning.SegmentsAreStretches | src/coinpilot/hft_features.py:354-387 | every segment is a stretch of valid events of one market, clock, capture and connection, with consecutive ordinals, growing time and no gap, one observation each |
| FeatureMeaning.EndsForGood | src/coinpilot/hft_features.py:354-387 | the record that ends a segment could not have carried it on, for every end reason |
| FeatureMeaning.BookMeaning | src/coinpilot/hft_features.py:390-437 | a valid book's mid lies halfway between its best prices, its microprice between them and nearer the ask when the bid is larger, and both imbalances are in [-1, 1] with the sign of bid minus ask |
| FeatureMeaning.SizesAdd | src/coinpilot/hft_features.py:412-418 | depth sizes add up level by level |
| FeatureBuilder.BuildFeatures | src/coinpilot/hft_features.py:690-891 | feeding an archive and finalizing yields exactly the rows FeatureMeaning.RowMeaning and FeatureSpec.OneRowPerBook describe |
| FeatureBuilder.CausalHFTFeatureBuilder.Feed | src/coinpilot/hft_features.py:690-883 | after every record the emitted rows are those of the naive result that are decided; after a book every pending row is younger than the largest horizon |
| FeatureBuilder.CausalHFTFeatureBuilder.CloseSegment | src/coinpilot/hft_features.py:588-611 | closing a segment emits its remaining rows with the invalid labels the end calls for |
| FeatureBuilder.CausalHFTFeatureBuilder.ExpireTrades | src/coinpilot/hft_features.py:672-688 | subtracting expired trades leaves exactly the sums over the retained ones |
| FeatureBuilder.CausalHFTFeatureBuilder.OnTrade | src/coinpilot/hft_features.py:778-809 | a first copy enters window and sums, a repeated id changes nothing |
| FeatureBuilder.ResolveQueue | src/coinpilot/hft_features.py:613-640 | a horizon's queue gives each row the label of the first book at or after its horizon, invalid beyond the overshoot |
| FeatureBuilder.EmitCompletedPrefix | src/coinpilot/hft_features.py:579-586 | rows leave in order, as soon as they and all before them are labelled |
| FeatureBuilder.PendingAreYoung | src/coinpilot/hft_features.py:613-640 | no row waits longer than the largest horizon |
| FeatureBuilder.TotalDropsFirst | src/coinpilot/hft_features.py:672-688 | the sums over a window are the sums without its first trade plus that trade |
| OnlineSignal.OnlineDiagnosticSignal.Feed | src/coinpilot/hft_shadow_signal.py:142-203 | continuity reset, pruning, in-window de-duplication and the weighted signal of each book |
| OnlineSignal.OnlineDiagnosticSignal.Prune | src/coinpilot/hft_shadow_signal.py:136-140 | trades older than the window leave with their ids |
| OnlineSignal.WindowsAgree | src/coinpilot/hft_shadow_signal.py:110-203 | on recorder streams with equal windows the signal keeps exactly the builder's trades after every record if and only if no id recurs in a segment after its first copy expired |
| OnlineSignal.ForgottenId | src/coinpilot/hft_shadow_signal.py:136-140 | two concrete trades on which signal and builder windows differ, for every window length |
| OnlineSignal.SignalIsFeatures | src/coinpilot/hft_shadow_signal.py:175-203 | without such a recurrence the signal is its weights applied to the builder row's L5 imbalance and signed-notional ratio |
| WalkForward.BuildDataset | src/coinpilot/features.py:111-160 | filling the frame segment by segment equals rows defined by backward windows and shifted labels of the whole series |
| WalkForward.WalkForward | src/coinpilot/strategy.py:205-311 | the walk over all rows, writing predictions in place and collecting fits, in either mode |
| WalkForward.RefitExpected | src/coinpilot/strategy.py:366-560 | the loops of a refit choose and train what WalkMeaning.SplitExactly and WalkMeaning.EveryFitReads describe |
| WalkMeaning.EveryFitReads | src/coinpilot/strategy.py:410-464 | every fit of a walk is what its recorded rows make of it: the model and its identity are those of the training rows, the calibration compares its predictions with the outcomes of the calibration rows, and these are the rows a refit at that time has to use; the same in probability mode |
| WalkMeaning.LateLabelsDoNotTrain | src/coinpilot/strategy.py:404-439 | rewriting the value of every label not settled when the first calibration bar closed leaves every fit's rows and model as they were |
| WalkMeaning.ValuesNeverChoose | src/coinpilot/strategy.py:372-428 | label values never decide when a walk fits or which rows it uses |
| WalkMeaning.SplitExactly | src/coinpilot/strategy.py:372-434 | the latest settled rows calibrate, and of those before them in the training window the ones settled by the first calibration bar's close train; there is a refit if and only if both are enough |
| WalkMeaning.ProbabilityExactly | src/coinpilot/strategy.py:237-260 | in probability mode the settled rows of the training window train, if there are enough in all |
| WalkMeaning.FitsExactly | src/coinpilot/strategy.py:357-428 | a refit happens exactly at a due row with features and enough settled rows, one more than the horizon before it |
| WalkMeaning.EveryOutputReads | src/coinpilot/strategy.py:561-630 | every output is made by the last fit: the calibrated return of the clamped forecast, what cost and buffer leave of it, and eligibility exactly when calibration, regime and edge allow it, with the reason that applies |
| WalkMeaning.LabelMeaning | src/coinpilot/features.py:130-143 | a row is labelled exactly when the next horizon and one candles follow without a gap, with what buying at the next open and selling horizon bars later earns |
| WalkForward.PredictionsArePrefixStable | src/coinpilot/strategy.py:314-630 | the first n candles alone give the first n predictions, model ids, eligibility flags and fits of any longer series, across gaps and refits |
| WalkForward.EveryFitSettled | src/coinpilot/strategy.py:366-464 | every fit uses labels settled by its bar, and base labels settled by the close of the first calibration bar |
| WalkForward.PredictionsFollowFits | src/coinpilot/strategy.py:589-630 | every prediction carries the id of the last fit made at or before its bar |
| WalkForward.PurgeSettles | src/coinpilot/strategy.py:237-252 | purging one row more than the horizon already leaves exactly the settled labels |
| RankAuc.AverageRanks | src/coinpilot/model.py:310-319 | tie groups share the average rank, which is the wins over all scores plus one half |
| RankAuc.BinaryAuc | src/coinpilot/model.py:299-324 | undefined without both classes; otherwise the count of won positive pairs over the number of positive-negative pairs |
| RankAuc.AucIsMannWhitney | src/coinpilot/model.py:299-324 | the formula is the Mann-Whitney fraction if and only if no positive wins or ties against an entry of neither class |
| RankAuc.NeitherCounts | src/coinpilot/model.py:299-324 | three concrete entries where the formula gives two wins over one pair |
| RankAuc.PositivesAmongThemselves | src/coinpilot/model.py:321-324 | among themselves positives win exactly half their pairs, the term the formula subtracts |
| ReplaySimulator.SimulateReplay | src/coinpilot/hft_sim.py:389-582 | the event loop with its nested fills computes the specified replay |
| ReplayMeaning.ReplayRecords | src/coinpilot/hft_sim.py:420-582 | every decision acts on the weighted signal of its event; every trade buys at one event's ask and sells at another's bid, each latency_steps after its decision or at the end, and pays the fee rate on both |
| ReplayMeaning.SignalMeaning | src/coinpilot/hft_sim.py:260-271 | the signal is the weighted average of book imbalance and trade flow, which needs no clipping |
| ReplayMeaning.DecidesExactly | src/coinpilot/hft_sim.py:500-535 | a flat strategy buys exactly when the signal reaches the entry threshold; one that holds sells exactly at the exit threshold or when the position is old enough |
| ReplayMeaning.EntryExactly | src/coinpilot/hft_sim.py:420-448 | a buy is of the configured notional, or of all that cash covers with the fee when that is less |
| ReplaySimulator.EntryAffordable | src/coinpilot/hft_sim.py:420-448 | with money in hand a buy always goes through and its cost with the fee is covered |
| ReplaySimulator.ReplayAccounts | src/coinpilot/hft_sim.py:420-582 | a replay ends flat, cash made is the trades' net profit, fees are the trades' fees, and no holding exceeds max_holding_steps plus latency_steps |
| ReplaySimulator.FeesNeverDecide | src/coinpilot/hft_research.py:173-186 | any two taker fee rates in [0,1) give the same decisions and fill events |
| Brokerage.SimulatedBroker.Buy | src/coinpilot/broker.py:132-181 | one buy opens the position at the slipped price with no more than cash covers |
| Brokerage.SimulatedBroker.SellAll | src/coinpilot/broker.py:183-254 | one sale closes the position and books proceeds, realized profit and the trade |
| Brokerage.SizingBounds | src/coinpilot/risk.py:22-55 | an accepted order is affordable with its fee and its loss fraction is within risk_per_trade of equity |
| BarMeaning.SizingExactly | src/coinpilot/risk.py:22-55 | an order is the least of what risk, allocation and cash allow, its stop the wider of ATR and minimum; it is refused exactly when the stop is too wide or that is too little |
| Brokerage.BuyKeeps | src/coinpilot/broker.py:132-181 | a sized buy keeps the cash identity and opens a budgeted position |
| Brokerage.SellKeeps | src/coinpilot/broker.py:183-254 | a sale keeps the cash identity and adds a trade within its budget |
| Brokerage.ExitWithinBudget | src/coinpilot/risk.py:35-55 | a trade whose raw exit is at or above its fixed stop loses at most risk_per_trade of the equity at entry, fees and slippage included |
| Brokerage.BudgetIsTight | src/coinpilot/risk.py:35-55 | a concrete entry loses its whole budget exactly at the stop and more on a gap below it, so the bound and its condition are sharp |
| BarEngine.BarExecutionEngine.ProcessBar | src/coinpilot/engine.py:102-440 | gap, exits, entry, stop, marking, halt, cooldown and pending signal of one bar |
| BarEngine.BarExecutionEngine.Liquidate | src/coinpilot/engine.py:442-457 | liquidation leaves a flat account, halted when a halt was pending |
| BarEngine.BarKeeps | src/coinpilot/engine.py:173-341 | every bar keeps cash equal to initial cash plus realized profit less an open position's cost, keeps halted accounts flat, lifts no halt and buys nothing once halted |
| BarEngine.RunKeeps | src/coinpilot/engine.py:102-440 | the same over every run of bars |
| BarMeaning.EveryBarReads | src/coinpilot/engine.py:173-440 | over every run, each bar: one sale at most, at the open or at the stop, for a reason that held; a purchase exactly when one is due; a position stays exactly above its fixed and trailing stop; the equity mark, the drawdown halt and what the next bar may act on |
| BarMeaning.StopCoolsDown | src/coinpilot/engine.py:245-356 | after a stop the next cooldown_bars bars buy nothing |
| BarEngine.LiquidationKeeps | src/coinpilot/engine.py:442-457 | after liquidation cash is initial cash plus the profit of all trades |
| BarEngine.StopWithoutGapIsBudgeted | src/coinpilot/engine.py:290-325 | a stop the bar did not open below loses no more than budgeted |
| PaperEngine.PaperSnapshotEngine.ProcessSnapshot | src/coinpilot/paper.py:212-655 | ticker checks, halting conditions, exits, entry, marking and clocks of one snapshot |
| PaperEngine.SnapshotKeeps | src/coinpilot/paper.py:303-571 | the bar engine's promises under the paper engine's steps; missed bars, an unready model and stale signals halt without buying |
| PaperEngine.SessionKeeps | src/coinpilot/paper.py:212-655 | over every session, refused snapshots included: balanced books, budgeted trades, no halt lifted, nothing bought under one, and observed times and bars that never go back |
| PaperMeaning.EverySnapshotReads | src/coinpilot/paper.py:303-655 | over every session: what a used snapshot sells, buys, marks and remembers, each for a reason that held; a refused one changes nothing |
| PaperMeaning.UsedExactly | src/coinpilot/paper.py:228-300 | a snapshot is used exactly when its ticker follows the bar by both clocks, is neither early nor old, and no clock or bar goes back |
| CommitMarker.VerifyArtifactCompletion | src/coinpilot/hft_workflow.py:959-1039 | true exactly when the marker lists every member and every stored hash matches |
| CommitMarker.PromoteWithoutOverwrite | src/coinpilot/hft_workflow.py:686-754 | succeeds exactly when no destination exists; otherwise the rollback, when its own removals succeed, restores the disk |
| CommitMarker.StepKeepsInv | src/coinpilot/hft_workflow.py:615-754 | no step of a writer, ignored failure, kill, power loss or foreign file creation breaks the marker's promise |
| CommitMarker.MarkerMeansVerified | src/coinpilot/hft_workflow.py:861-957 | whenever the marker exists, on the disk or on anything a power loss can leave, verification of all members succeeds: on a medium with order across directories for all writers, else for careful ones whose syncs succeed |
| CommitMarker.OverwritingIsSafeExactly | src/coinpilot/hft_workflow.py:861-882 | where directories fall back independently, replacing the first member of a bundle whose marker is gone keeps every returning marker verified if and only if the marker's removal is durable or that member lives beside the marker |
| CommitMarker.KilledRemovalExposes | src/coinpilot/hft_workflow.py:874-876 | every writer killed between removing the marker and syncing its directory leaves that condition unmet |
| CommitMarker.PromoteKeeps | src/coinpilot/cli.py:717-734 | members are replaced or linked only while no marker is there, and where one can still come back only beside it |
| CommitRollback.RollbackLeaves | src/coinpilot/hft_workflow.py:717-753 | a rolled back promotion leaves of its own files exactly those whose removal failed, the one linked when it was stopped before recording it, and those already unstaged when it was stopped later; it removes only its own |
| CommitRollback.PublishedLeavesNothingStaged | src/coinpilot/hft_workflow.py:716-720 | over every run, an overwriting writer that has published left no staged file |
| CommitRollback.UnrecordedLinkStays | src/coinpilot/hft_workflow.py:721-730 | stopped between its link and the record of it, a concrete writer leaves its file |
| CommitRollback.UnstagedLinkStays | src/coinpilot/hft_workflow.py:731-753 | stopped after its staging name went, a concrete writer leaves its file |
| CommitRollback.SkippedUnlinkStays | src/coinpilot/hft_workflow.py:743-752 | stopped with its link recorded, a concrete writer whose removal fails silently leaves its file |
| CommitRollback.JustLinkedReached | src/coinpilot/hft_workflow.py:717-730 | the state after a concrete link is reached by staging, locking and linking |
| CommitRollback.JustUnstagedReached | src/coinpilot/hft_workflow.py:731-740 | recording and unstaging lead from it to the state after a concrete unstaging |

## Left out

- WebSocket, HTTP, reconnects, notifications, health and equity sampling, dashboards, command lines: input and output around the modelled steps.
- JSON, gzip, SHA-256, UUID and SQL text: replaced by injective functions, identities and atomic transactions; a manifest's compressed byte count adds nothing beside an injective digest.
- Symbolic-link, path-safety and file-mode checks, source fingerprints: single-branch checks that do not interact with the protocols.
- Sorting: archive-ordered books, record order and score order are given as sorted permutations; duplicate capture ordinals, which the code rejects, are excluded there.
- Object sharing between pending rows and label queues is modelled by row numbers within a segment.
- The bound on in-memory trade identifiers and the raise policies of the feature builder: the model follows the segment policies with exact de-duplication.
- Ridge and logistic fitting, feature window formulas and the calibration arithmetic of a refit: uninterpreted functions of the rows they are given.
- Equity curves, drawdown sampling and Sharpe-style metrics of the replay simulator.
- Notices other than those of halts: their keys name the book, order or time they are about.
- The feature builder's branch for a record without an event: parsing yields one only for markers.
- The diagnostic policy's choice of intents: engine results hold for every intent.
- IEEE rounding: arithmetic is over exact reals, with the sweep snap, position epsilon and drawdown slack kept as in the code.
- A member written by a program that ignores the bundle lock and replaces an existing file: such a program can break any marker.
