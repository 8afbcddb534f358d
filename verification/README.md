# Recovery, repair and dispatch: a verified model

A Dafny 4.11 model of the recovery tooling in `scripts/`: how a futures data campaign
settles every unit exactly once, how an interrupted turnover repair converges, how the
parity checker pairs prices, and how durable marker files keep commands from running
twice. Each producer is modelled separately from the checker that the repository wrote
for it, and the two are proved to agree.

`dafny verify dfyconfig.toml` checks the whole project.

## How the model is laid out

| files | what they model |
|---|---|
| `Wrappers`, `Seqs`, `Sorting`, `Matching` | options, lists without repetition, stable sorting, bijections |
| `Journal`, `JournalReader` | the append-only attempt journal (a class), its reader, its independent checker, and the driver that writes it |
| `Units`, `Isolation`, `Batch` | frozen units, proof of a source fault, and the batch executor |
| `BatchChecker`, `BatchTheorems` | the independent batch checker and its soundness and completeness |
| `Manifest`, `Campaign`, `CampaignTheorems` | the frozen campaign, its serial executor, and what its report means |
| `Settlement`, `SettlementTheorems` | the independent settlement (a class with five books) and the end-to-end agreement |
| `Bars`, `Overlay`, `OverlayTheorems` | weekly aggregates, the stale-side classifier and the daily overlay |
| `Realign`, `RealignPlan`, `RealignTheorems`, `RealignExamples`, `Detector` | the crash-resumable turnover realignment and the conflict detector it must silence |
| `QualityRepair` | prepare, apply, inspect and restore of the weekly quality repair |
| `Pricing` | the parity check of dated price markers |
| `Dispatch`, `Coordinator`, `Maintenance` | serial dispatch, the one-apply recovery attempt, the shrinking maintenance window |
| `Report` | exact coverage of the readiness report |

Conventions of the model:

- Everything outside the modelled code is an arbitrary oracle passed as a value: the
  warm-up manager, the provider, the writer guard, child revalidation, the batch
  subprocess, every durable write, both clocks, lost commits, and the moment at which a process dies.
- SHA-256 and canonical JSON are injective, so a digest is modelled as the content it
  digests, and a file name that contains a digest as that digest.
- Prices, volumes and turnovers are exact scaled integers; the pricing tolerance is a real.
- A crash is a stop between two durable steps. Concurrency (`Dispatch`, `Coordinator`)
  is a state machine over the steps of any number of processes.
- A method with a loop or with state is proved equal to a specification function or
  predicate; the theorems are about those.

## Main results

1. **End to end.** For every valid campaign and every behaviour of guards, children,
   batches and disks, `_validated_execution` accepts the report `execute_campaign`
   returns if and only if the campaign has no partial source exception and recovers
   daily units only; its five counts are then the reported ones, and it calls the
   campaign complete exactly when its status is passed.
2. **Conservation.** On every path out of the campaign loop each unit is in exactly one
   class, so the repair of a settlement that does not add up never fires.
3. **Unknown stays unknown**, from the journal through batch and campaign: whatever is
   counted as success, isolated or known failure left a journal with every started
   request saved, and anything else forces the status unknown.
4. **Checkers.** The journal checker accepts what the driver leaves if and only if the disk
   kept exactly one failure and a record for every response file, so always when it keeps
   every write; the batch checker accepts an executor's result if and only if the frozen
   keys are distinct and every unit's evidence is deliverable; what either accepts is a
   true partition. Executor and campaign composed: how a child ends is decided exactly by
   what the executor met.
5. **Crash convergence.** A packet applies at all if and only if no two of its units
   write the same partition. Then every interrupted run can be resumed if and only if the
   weekly texts of the packet are stable (eighteen fractional digits, or no turnover),
   and resumed runs reach the catalog of one uninterrupted run, after which a further run
   writes nothing. Only turnovers change; after a finished run every week equals the
   aggregate of its days and the detector is quiet.
6. **Optimal matching.** Pairing two price lists after sorting keeps every pair within
   the tolerance if and only if some bijection does, and the reported largest difference
   is the least any bijection can reach.
7. **At most once.** Over any interleaving of crashed and concurrent dispatchers the
   launched commands are a prefix of the frozen order, each launched once; an attempt
   directory binds one plan and invokes recovery at most once.

## Where the code differs from what its text or tests suggest

- `scripts/newow_weekly_provider_turnover_realign.py:3-6` says that a week with other
  differences is refused and nothing is written. That holds for the preparation, which
  writes no packet then. An apply is not atomic: whatever it refuses a unit for, the units
  before it stay committed (`RealignTheorems.RefusedAt`).
- Two planned units that rewrite the same month partition can never be applied, not even
  to the catalog they were prepared from (`RealignTheorems.AppliesExactly`; for instance
  `RealignExamples.SharedExample`).
- The realignment compares the weekly turnover as text
  (`scripts/newow_weekly_provider_turnover_realign.py:375-376`). A daily number read back
  from the store prints with eighteen fractional digits, a prepared one with those of the
  provider. So a packet whose week was corrected on every day by ordinary provider
  numbers finishes, but is refused as drifted when it runs again, be it after a crash or
  after it finished (`RealignTheorems.RerunExactly`, `RealignTheorems.ResumesExactly`, state by state
  `RealignTheorems.ResumesFrom`,
  `RealignTheorems.CorrectedThroughoutIsUnstable`; for instance
  `RealignExamples.UnstableExample`).
- The validation of a manifest never compares the known isolations with the partial
  source exceptions, so a manifest that lists a weekly unit in both is valid and its
  campaign counts the unit twice (`Manifest.CountedOnceExactly`,
  `CampaignTheorems.OverlapIsReportedTwice`). The gap is in the re-validation only: the
  preparation compares the two lists at `scripts/newow_weekly_recovery_campaign.py:1896-1901`
  and never writes such a manifest (`Manifest.PreparedCountsOnce`).
- An append that reports an error after its bytes reached the disk makes the next request
  reuse the sequence number, or a second failure follow the first. Strict numbering holds
  if and only if no append does that (`JournalReader.JournalIsExact`).
- The report section check accepts a repair target listed twice; only the caller's own
  check makes repairs one-to-one (`Report.RepeatedRepairAccepted`).
- A status of not applied speaks about the moment the claim file was looked for; another
  process may claim and invoke before the answer is given (`Coordinator.NotAppliedCanBeLate`).
  It is true of the answer's own moment if and only if nobody did (`Coordinator.AnswerExactly`).
- A maintenance window failure caused by the wall clock alone passes when the clock is
  set back; one caused by elapsed time never does (`Maintenance.WallFailureCanPass`).

## Model

| member | source | states |
|---|---|---|
| Journal.ValidateResponseIdentity | scripts/newow_weekly_recovery.py:1347-1373 | accepts a response exactly when every expected day is present and no row lacks a day, repeats one or leaves the window |
| Journal.AttemptJournal.Open | scripts/newow_weekly_recovery.py:271-295 | refuses a scope exactly when it lists a request twice, and otherwise starts with nothing recorded |
| Journal.AttemptJournal.BeforeRequest | scripts/newow_weekly_recovery.py:297-311 | the whole new journal state for each way the append can end: out of scope and repeated requests are refused, and a request counts as started only after its append returned |
| Journal.AttemptJournal.AfterResponse | scripts/newow_weekly_recovery.py:313-346 | the whole new state for each way the file, the record and the failure record can be written or lost |
| Journal.AttemptJournal.MarkFailed | scripts/newow_weekly_recovery.py:348-365 | only the first failure is recorded, with a safe code |
| Journal.RunKeepsInv | scripts/newow_weekly_recovery.py:297-420 | over any sequence of calls and any disk: started requests are allowed and recorded under their sequence, each saved record follows its own started record and describes its file, and no sequence is saved twice |
| JournalReader.JournalIsExact | scripts/newow_weekly_recovery.py:297-379 | over any calls on any disk, started records are exactly the started requests in increasing sequence and at most one failure is recorded, if and only if no append reported an error after its bytes reached the disk |
| JournalReader.KnownMeansEveryResponseSaved | scripts/newow_weekly_recovery.py:451-475 | after any calls on any disk, an outcome that is not unknown means every started sequence was saved |
| JournalReader.UnknownExactly | scripts/newow_weekly_recovery.py:451-475 | on any disk, the outcome is unknown if and only if some request let through is unsaved or the last start record is one whose append reported an error |
| JournalReader.DuplicateSequenceWitness | scripts/newow_weekly_recovery.py:297-311 | an instance of an erring append: two started records share a sequence number |
| JournalReader.TwoFailuresWitness | scripts/newow_weekly_recovery.py:348-365 | an instance of an erring append: two failures are recorded |
| JournalReader.ValidatedSourceAttemptOutcome | scripts/newow_weekly_recovery.py:551-663 | returns an outcome exactly for journals that are a frozen prefix, each request saved before the next, the last response possibly missing, then one failure, with exactly the saved files; the outcome is the one the counts dictate |
| JournalReader.AcceptedAgreesWithReader | scripts/newow_weekly_recovery.py:451-475 | on every accepted journal the independent reader reports what the checker reports |
| JournalReader.DriverRoundTrip | services/quant-api/app/market_data/rqdata_adapter.py:390-432 | for any number of requests, any replies and any disk, the checker accepts the journal the driver leaves if and only if exactly one failure was recorded and every response file has its record, and then reports what the reader reports |
| JournalReader.DurableRoundTrip | services/quant-api/app/market_data/rqdata_adapter.py:390-432 | on a disk that keeps every write the checker accepts whatever the driver leaves |
| Isolation.SourceIsolationEvidence | scripts/newow_weekly_recovery.py:666-813 | gives evidence exactly when the saved responses replay in order against the frozen requests, some row has the known fault, every failure names it, and nothing was applied; the evidence lists the digests of the responses |
| Isolation.IsolationHasNoUnknown | scripts/newow_weekly_recovery.py:715-813 | a proven isolation has at least one request, every response saved, and a journal the failure checker accepts too; so the second reading of the outcome decides nothing new |
| Batch.ExecutePreparedBatch | scripts/newow_weekly_recovery.py:1001-1248 | the batch result and every unit directory equal the settlement of the units in order up to the first that stops; a batch of no or more than twenty units is refused |
| BatchChecker.IndexByKey | scripts/newow_weekly_recovery_campaign.py:3122-3124 | the dictionary has as many entries as units exactly when the keys are distinct |
| BatchChecker.SettleList | scripts/newow_weekly_recovery_campaign.py:3125-3152 | accepts a list exactly when every entry is backed by the directory of its own frozen unit and no unit is settled twice, and then yields exactly the settled positions |
| BatchChecker.MatchEntry | scripts/newow_weekly_recovery_campaign.py:3310-3470 | a completed or isolated entry matches exactly when unit, evidence, journal outcome, readback and request counts all agree |
| BatchChecker.ValidatedNativeTerminal | scripts/newow_weekly_recovery_campaign.py:3102-3200 | accepts exactly the results whose settled positions are a prefix, followed by at most one failed unit and the untouched tail |
| BatchTheorems.AcceptedIsPartition | scripts/newow_weekly_recovery_campaign.py:3102-3200 | whatever is accepted loses no unit and counts none twice, and the settled units are a prefix of the batch |
| BatchTheorems.SettledIsNeverUnknown | scripts/newow_weekly_recovery_campaign.py:3424-3470 | every completed or isolated unit of an accepted result has all its started requests saved |
| BatchTheorems.ExecutorIsAccepted | scripts/newow_weekly_recovery.py:1069-1248 | the checker accepts the executor's result if and only if the frozen keys are distinct, the manager did for completed units what was planned (requests, journal, readback), and isolated units count their own targets |
| Manifest.ValidateCampaignManifest | scripts/newow_weekly_recovery_campaign.py:2104-2319 | accepts exactly the manifests whose children are numbered and of legal size, whose keys and identities are distinct across frozen and known units, and whose denominator is their number |
| Manifest.CountedOnceExactly | scripts/newow_weekly_recovery_campaign.py:2139-2156 | the denominator of a valid manifest counts every unit once if and only if no known isolation is a partial exception too |
| Manifest.CountedTwiceWitness | scripts/newow_weekly_recovery_campaign.py:2139-2156 | an instance: a valid manifest that counts one unit twice |
| Manifest.PrepareCampaign | scripts/newow_weekly_recovery_campaign.py:1829-1913 | the preparation of a manifest with the comparisons of isolations and exceptions, and its own validation at the end |
| Manifest.PreparedCountsOnce | scripts/newow_weekly_recovery_campaign.py:1886-1913 | a prepared manifest counts every proposed unit once and runs exactly those that are neither isolated nor excepted |
| Campaign.ValidatedBatchInvocation | scripts/newow_weekly_recovery_campaign.py:3012-3099 | a reply is taken exactly if code, status, receipt and persisted result agree and the batch checker accepts it |
| Campaign.FailedUnitIsKnown | scripts/newow_weekly_recovery_campaign.py:3203-3298 | a stopping failure is known exactly if its own receipt and replayed journal agree, nothing is outstanding and the commit is not open |
| Campaign.JudgeChild | scripts/newow_weekly_recovery_campaign.py:645-767 | how one child ends, for every answer of guard, revalidation, invocation and receipts |
| Campaign.VerdictConserves | scripts/newow_weekly_recovery_campaign.py:739-767 | a settled child gives back exactly its units, a stopped one its settled units, the failed unit and the tail |
| Campaign.Conservation | scripts/newow_weekly_recovery_campaign.py:639-816 | on every path out of the loop the five classes together are exactly the frozen units |
| Campaign.SettlementAddsUp | scripts/newow_weekly_recovery_campaign.py:835-851 | for a validated manifest the six counts add up to the denominator, so the repair of the settlement never runs |
| Campaign.RunBatches | scripts/newow_weekly_recovery_campaign.py:645-767 | stops at the first child that does not settle, with everything counted before and in it |
| Campaign.CountStop | scripts/newow_weekly_recovery_campaign.py:769-816 | the failed, unattempted and unknown counts are the sizes of those classes |
| Campaign.RepairSettlement | scripts/newow_weekly_recovery_campaign.py:843-851 | were it ever needed, it would make the counts add up or refuse |
| Campaign.ExecuteCampaign | scripts/newow_weekly_recovery_campaign.py:625-883 | refuses an invalid manifest, and otherwise returns the report stated from the verdicts of the children |
| CampaignTheorems.SummaryConserves | scripts/newow_weekly_recovery_campaign.py:835-883 | the reported counts add up to the denominator |
| CampaignTheorems.OverlapIsReportedTwice | scripts/newow_weekly_recovery_campaign.py:625-883 | a campaign whose manifest lists one unit as isolation and as exception reports it in both lists and counts it twice in the denominator, however it runs |
| CampaignTheorems.PassedExactly | scripts/newow_weekly_recovery_campaign.py:769-792 | passed if and only if the result was recorded, nothing was known broken before, and every batch passed |
| CampaignTheorems.PassedMeansEverySuccess | scripts/newow_weekly_recovery_campaign.py:769-883 | passed implies success equals the denominator and every other count is zero |
| CampaignTheorems.UnknownExactlyWhen | scripts/newow_weekly_recovery_campaign.py:660-771 | unknown if and only if the result was not recorded, or the batch it stopped in was started and its reply was not validated or recorded or its unit is not a proven known failure |
| CampaignTheorems.CountedUnitIsAnswered | scripts/newow_weekly_recovery_campaign.py:3310-3470 | every unit counted as success or isolated has its own journal with every started request saved |
| CampaignTheorems.KnownFailureIsAnswered | scripts/newow_weekly_recovery_campaign.py:3203-3298 | a unit counted as stopping failure was replayed against its frozen requests with every response saved and no open commit |
| CampaignTheorems.UnansweredForcesUnknown | scripts/newow_weekly_recovery_campaign.py:739-766 | an outstanding request or an open commit of the stopping unit forces the campaign to unknown |
| CampaignTheorems.RelayedExactly | scripts/newow_weekly_recovery_campaign.py:645-767 | for a child whose subprocess ran the executor: it settles, stops known, stops unknown or is lost exactly as the batch is deliverable, a unit stopped, and that unit's journal proves its failure |
| CampaignTheorems.DrivenFailureIsKnown | scripts/newow_weekly_recovery_campaign.py:3203-3298 | when the stopping unit's journal is what the driver left, its failure is known if and only if one failure was recorded, files and saved records agree, every started request is saved, and the commit is not open |
| Settlement.Ledger.constructor | scripts/newow_daily_recovery_verification.py:163-181 | the books start empty, over the campaign's universe and frozen orders |
| Settlement.Ledger.AddUnit | scripts/newow_daily_recovery_verification.py:182-192 | a unit enters a category exactly if it is known and in no category yet; the books stay disjoint and ordered |
| Settlement.Ledger.AddAll | scripts/newow_daily_recovery_verification.py:225-235 | a list enters exactly if all of it can, in order |
| Settlement.Ledger.AddTerminal | scripts/newow_daily_recovery_verification.py:216-235 | a reported terminal enters as its completed, isolated, stopping and unattempted units |
| Settlement.Ledger.ClassifyTerminal | scripts/newow_daily_recovery_verification.py:194-258 | a batch enters exactly once and only if it is frozen and claims no unit twice |
| Settlement.ClassifySteps | scripts/newow_daily_recovery_verification.py:237-258 | all reported batches enter exactly if no batch repeats and the claims are admissible |
| Settlement.CheckHeader | scripts/newow_daily_recovery_verification.py:100-175 | totals, identities and frequencies are fit to be settled |
| Settlement.CompareCounts | scripts/newow_daily_recovery_verification.py:277-281 | every book has the reported size |
| Settlement.ValidatedExecution | scripts/newow_daily_recovery_verification.py:95-288 | returns exactly when the rebuilt claims are a partition of frozen units and known isolations that agrees with every counter, and hands on what was processed |
| SettlementTheorems.SettlementIsPartition | scripts/newow_daily_recovery_verification.py:163-281 | for any accepted report the five classes are pairwise disjoint, cover the universe, have the reported sizes, and every unit not unattempted is handed on exactly once |
| SettlementTheorems.CompleteMeansAllSuccess | scripts/newow_daily_recovery_verification.py:282-288 | a settlement called complete has every unit of the universe in success |
| SettlementTheorems.OutcomeClaims | scripts/newow_weekly_recovery_campaign.py:625-883 | the claims rebuilt from a campaign's own report are exactly its classes, wherever it stopped |
| SettlementTheorems.EndToEnd | scripts/newow_daily_recovery_verification.py:95-288 | the settlement accepts the executor's report if and only if there is no partial exception and all units are daily; complete exactly when passed |
| Bars.AggregateDailyRows | services/quant-api/app/market_data/rqdata_adapter.py:1040-1091 | the loop computes the weekly aggregate, including both errors |
| Bars.AggregateIsValid | services/quant-api/app/market_data/rqdata_adapter.py:1071-1091 | the aggregate of valid bars is a valid bar, so building it cannot fail on the price envelope |
| Bars.AggregateOfOne | services/quant-api/app/market_data/rqdata_adapter.py:1040-1091 | one traded day is its own week |
| Bars.AggregateOfTwo | services/quant-api/app/market_data/rqdata_adapter.py:1040-1091 | two parts of a week compose: first open, second close, widest range, added volume and turnover |
| Bars.NoTradeSetsNoPrice | services/quant-api/app/market_data/rqdata_adapter.py:1049-1066 | days without any trade never set a price |
| Bars.UnknownTurnover | services/quant-api/app/market_data/rqdata_adapter.py:1080-1087 | the weekly turnover is unknown exactly if every day's is |
| Overlay.OverlayProviderTurnover | scripts/newow_weekly_d1_then_w1_repair.py:50-82 | the overlay loop over its dictionary, with the first error in provider order |
| Overlay.RealignedIsAggregate | scripts/newow_weekly_d1_then_w1_repair.py:106-127 | a realigned week is the aggregate of its days in every field, and realigning again changes nothing |
| OverlayTheorems.OverlayTouchesOnlyTurnover | scripts/newow_weekly_d1_then_w1_repair.py:50-82 | every bar keeps its place and all fields but turnover; exactly the reported days change, each to the provider's value |
| OverlayTheorems.SecondOverlayFindsNothing | scripts/newow_weekly_d1_then_w1_repair.py:78-80 | laid over its own result the overlay reports no stale day |
| OverlayTheorems.ClassifierAgreesWithRepair | scripts/newow_weekly_conflict_source_verify.py:61-125 | told the daily side is stale, the overlay succeeds if and only if the provider knows every turnover it overwrites, and the stored week then matches; told the weekly side is stale, the overlay finds nothing |
| Realign.LastPrepared | scripts/newow_weekly_provider_turnover_realign.py:273-282 | present exactly if the last bar of every corrected day has its turnover |
| Realign.CheckedDaily | scripts/newow_weekly_provider_turnover_realign.py:344-359 | one daily partition is taken from its preimage or as already corrected, or refused |
| Realign.Checked | scripts/newow_weekly_provider_turnover_realign.py:330-382 | a unit is checked as a whole before it writes |
| Realign.Store.Publish | scripts/newow_weekly_provider_turnover_realign.py:244-255 | one partition is installed, committed and read back, or the run stops just before |
| Realign.Store.PublishAll | scripts/newow_weekly_provider_turnover_realign.py:383-400 | partitions of a unit commit one after another |
| Realign.Store.ApplyPrepared | scripts/newow_weekly_provider_turnover_realign.py:304-410 | the catalog and the number of writes after a run that may stop after any number of commits |
| RealignPlan.Planned | scripts/newow_weekly_provider_turnover_realign.py:88-202 | the planning of one week, with every refusal |
| RealignPlan.PlanIsPrepared | scripts/newow_weekly_provider_turnover_realign.py:88-202 | a planned week records the exact preimages, corrects only days of the week that differ, each to the fresh turnover, and its weekly turnover is the sum of the corrected days |
| RealignPlan.PlansMakePacket | scripts/newow_weekly_provider_turnover_realign.py:205-241 | weeks planned from one catalog with distinct ends and days form a packet |
| RealignTheorems.Converges | scripts/newow_weekly_provider_turnover_realign.py:330-406 | with stable weekly texts, after any number of interrupted runs one more run finishes in the catalog of one uninterrupted run, and a further run writes nothing |
| RealignTheorems.ResumesExactly | scripts/newow_weekly_provider_turnover_realign.py:330-406 | every interrupted run can be resumed if and only if every prepared weekly text is stable |
| RealignTheorems.ResumesFrom | scripts/newow_weekly_provider_turnover_realign.py:330-406 | from a catalog in which just some partitions are rewritten, one more run finishes in the catalog of one uninterrupted run if and only if the text of every planned unit still comes out as prepared, and is refused as drifted otherwise |
| RealignTheorems.SteadyExactly | scripts/newow_weekly_provider_turnover_realign.py:371-376 | the text of a unit survives the rewriting of some partitions if and only if it has eighteen fractional digits or none of those partitions gives its week a turnover |
| RealignTheorems.RerunExactly | scripts/newow_weekly_provider_turnover_realign.py:371-379 | a finished packet runs again without a write if and only if every prepared weekly text is stable, and is refused as drifted otherwise |
| RealignTheorems.StableExactly | scripts/newow_weekly_provider_turnover_realign.py:375-376 | a prepared weekly text is stable if and only if it has eighteen fractional digits or no day of the week has a turnover |
| RealignTheorems.CorrectedThroughoutIsUnstable | scripts/newow_weekly_provider_turnover_realign.py:375-376 | a week whose every turnover is replaced by a number with fewer digits than a stored one is not stable |
| RealignExamples.UnstableExample | scripts/newow_weekly_provider_turnover_realign.py:371-379 | an instance: a packet that is applied and then refused as drifted when it runs again |
| RealignTheorems.AppliesExactly | scripts/newow_weekly_provider_turnover_realign.py:257-289 | a packet applies to its own catalog if and only if no two units write the same partition |
| RealignTheorems.SharedWritesAreRefused | scripts/newow_weekly_provider_turnover_realign.py:346-389 | a packet with a shared write is refused at the later unit and what earlier units planned stays committed |
| RealignTheorems.RefusedAt | scripts/newow_weekly_provider_turnover_realign.py:330-400 | whatever a unit is refused for, the run ends there and what earlier units committed stays |
| RealignExamples.SharedExample | scripts/newow_weekly_provider_turnover_realign.py:257-289 | an instance: two weeks of one month are refused on the catalog they were prepared from |
| RealignTheorems.RunChangesOnlyTurnovers | scripts/newow_weekly_provider_turnover_realign.py:257-270 | in any run, stopped or not, bars keep their number, order, days and every field but turnover, and turnovers change only in planned weeks |
| RealignTheorems.WeeksAgreeAfterwards | scripts/newow_weekly_provider_turnover_realign.py:343-400 | after a finished run every week's stored bar is the aggregate of its stored days in every field |
| Detector.CollectConflictWeeks | scripts/newow_weekly_conflict_diagnosis.py:104-179 | the loop over expected weeks, skipping incomplete ones |
| Detector.StoredByEnd | scripts/newow_weekly_conflict_diagnosis.py:202-211 | the weekly bars up to the cutoff by their end, refused exactly if two share one |
| Detector.ReportsExactly | scripts/newow_weekly_conflict_diagnosis.py:116-129 | a week is reported if and only if it is complete and its stored bar is not its aggregate |
| Detector.PacketWeekIsQuiet | scripts/newow_weekly_conflict_diagnosis.py:114-130 | in a catalog after a finished realignment the examination of any week of the packet finds nothing, whatever was read with it |
| Detector.QuietAfterwards | scripts/newow_weekly_conflict_diagnosis.py:104-179 | whatever a scan of the repaired catalog still reports is not a week of the packet |
| QualityRepair.Prepared | scripts/pf_rs_weekly_quality_repair.py:226-250 | the packet of all months and their daily proofs |
| QualityRepair.RowsAreConserved | scripts/pf_rs_weekly_quality_repair.py:165-199 | removed and retained rows together are exactly the month's rows, each removed week was there, and counts agree |
| QualityRepair.OldIsNotCandidate | scripts/pf_rs_weekly_quality_repair.py:325-343 | a prepared month can be old or candidate, never both |
| QualityRepair.Inspected | scripts/pf_rs_weekly_quality_repair.py:310-347 | says candidate, old or mixed exactly as every month stands, and refuses when a daily proof moved |
| QualityRepair.Repository.ApplyPacket | scripts/pf_rs_weekly_quality_repair.py:350-412 | the rows switch as one transaction, only if a fresh preparation equals the packet; a lost commit leaves all or nothing |
| QualityRepair.Repository.RestorePacket | scripts/pf_rs_weekly_quality_repair.py:415-458 | the rows go back as one transaction, only from candidate and only while the old files are intact |
| QualityRepair.ApplyMakesCandidate | scripts/pf_rs_weekly_quality_repair.py:350-412 | before apply a packet is inspected as old, after it as candidate, and no other partition moves |
| QualityRepair.LostApplyIsWhole | scripts/pf_rs_weekly_quality_repair.py:350-412 | after a lost commit of apply the packet is inspected as candidate or as old, never as mixed |
| QualityRepair.RestoreMakesOld | scripts/pf_rs_weekly_quality_repair.py:415-458 | from every candidate store with the old files intact, restore succeeds, is inspected as old, and moves nothing else |
| QualityRepair.LostRestoreIsWhole | scripts/pf_rs_weekly_quality_repair.py:415-458 | after a lost commit of restore the packet is inspected as old or still as candidate |
| QualityRepair.ApplyThenRestore | scripts/pf_rs_weekly_quality_repair.py:350-458 | apply and restore together leave every catalog pointer as it was, removed months included |
| Matching.SortedPairingIsOptimal | scripts/newow_p0_numeric.py:296-316 | sorted pairing is within a tolerance if and only if some bijection is |
| Matching.InsertWithin | scripts/newow_p0_numeric.py:296-316 | the exchange step: inserting two close prices into two close sorted lists leaves them close |
| Pricing.Group | scripts/newow_p0_numeric.py:230-283 | prices are collected per owner, instant and kind, losing none |
| Pricing.CompareKey | scripts/newow_p0_numeric.py:296-328 | counts all differences of one key, keeps the first fifty and the largest price difference |
| Pricing.CompareOwner | scripts/newow_p0_numeric.py:286-350 | the check of one strategy and owner |
| Pricing.CompareNativeSignals | scripts/newow_p0_numeric.py:285-353 | passes exactly if every check of every strategy and owner does |
| Pricing.PassesExactly | scripts/newow_p0_numeric.py:286-351 | a check passes if and only if every instant and kind has a bijection within the tolerance |
| Pricing.MaxDeltaIsLeast | scripts/newow_p0_numeric.py:295-329 | with equal counts the reported largest difference is the least any bijections can reach |
| Pricing.EveryMarkerIsCounted | scripts/newow_p0_numeric.py:335-344 | the reported counts are all markers of the owner, so none escapes comparison |
| Dispatch.StagesDistinct | scripts/newow_p0_candidate.py:118-126 | distinct products make distinct stages, so no two positions share files |
| Dispatch.StepKeepsInv | scripts/newow_p0_serial_campaign.py:42-75 | what every step of every dispatcher keeps: one owner per marker, receipts after successes after launches after markers, and everything before a marker completed |
| Dispatch.LaunchedIsPrefix | scripts/newow_p0_serial_campaign.py:42-75 | over any interleaving the launched commands are a prefix of the order, each once, all but the last succeeded with a receipt |
| Dispatch.FusionWaitsForBase | scripts/newow_p0_candidate.py:124-126 | no fusion command of a product is launched before all commands of its base stages completed |
| Dispatch.AbandonedForever | scripts/newow_p0_serial_campaign.py:56-57 | once a marker has no dispatcher and no receipt, nothing is ever launched again |
| Coordinator.PlanStepOk | scripts/reference_htdy_conflict_recovery.py:294-391 | what each step of a planning process keeps |
| Coordinator.ApplyStepOk | scripts/reference_htdy_conflict_recovery.py:393-426 | what each step of an applying process keeps |
| Coordinator.StatusStepOk | scripts/reference_htdy_conflict_recovery.py:428-453 | what each step of a status process keeps |
| Coordinator.OneAttemptOneApply | scripts/reference_htdy_conflict_recovery.py:350-426 | an attempt binds one plan, claims only that plan, invokes recovery at most once and only with it, and never shows a drifted claim |
| Coordinator.BoundForever | scripts/reference_htdy_conflict_recovery.py:129-142 | what is bound, claimed or received stays so whatever runs later |
| Coordinator.AnswersAreTrue | scripts/reference_htdy_conflict_recovery.py:428-453 | every status answer ever given is true of the moment it rests on |
| Coordinator.AnswerExactly | scripts/reference_htdy_conflict_recovery.py:428-453 | whatever other processes do between the look for the claim and the answer: committed and unknown are true when given, and not applied is true if and only if nobody invoked recovery in between, in particular while nobody has claimed |
| Coordinator.NotAppliedCanBeLate | scripts/reference_htdy_conflict_recovery.py:430-448 | a run from an empty directory in which not applied is answered after recovery was invoked |
| Coordinator.LostClaimNeverInvokes | scripts/reference_htdy_conflict_recovery.py:398-426 | a claim whose process died before invoking is final |
| Maintenance.Guard.Open | scripts/reference_history_maintenance.py:70-105 | who gets a window, with every refusal, and the first window: the earlier boundary, and the span to it on the monotonic clock |
| Maintenance.Guard.RefreshSession | scripts/reference_history_maintenance.py:96-100 | a refresh never extends boundary or span |
| Maintenance.WindowOnlyShrinks | scripts/reference_history_maintenance.py:84-105 | over any checks, refreshes and clock readings the window only shrinks |
| Maintenance.ElapsedIsPermanent | scripts/reference_history_maintenance.py:93-100 | once the monotonic span is used up nothing is ever permitted again, wherever the wall clock is set |
| Maintenance.PermittedWithinFirstSpan | scripts/reference_history_maintenance.py:84-100 | whatever is permitted lies within the span granted at the start |
| Maintenance.AdmittedUntil | scripts/reference_history_maintenance.py:81-105 | an admitted guard permits nothing once the monotonic clock has moved by the time that was left to the deadline or the session boundary, whatever follows |
| Maintenance.RefreshBindsElapsed | scripts/reference_history_maintenance.py:96-100 | after a refresh nothing is permitted beyond the session boundary it read, measured monotonically |
| Maintenance.WallFailureCanPass | scripts/reference_history_maintenance.py:93-94 | a failure caused only by the wall clock passes when the clock is set back |
| Maintenance.Runner.Rounds | scripts/reference_history_maintenance.py:181-203 | each round is checked under the window the ticks before it have left; the first that ends the catch-up decides the result, and the budget bounds the ticks |
| Maintenance.Runner.BoundedCatchup | scripts/reference_history_maintenance.py:110-205 | the native hooks are back on every exit whatever the ticks did to them, the ticks are within budget, and completed means every frozen route reached its endpoint under a permission that held |
| Maintenance.CompletedExactly | scripts/reference_history_maintenance.py:183-191 | a round completes exactly when permission holds, the scope is unchanged and nothing is pending or behind |
| Maintenance.RoundsWithinSpan | scripts/reference_history_maintenance.py:84-105 | every round that ticks or completes was checked within the first window on both clocks |
| Report.ValidateSections | scripts/newow_weekly_recovery_campaign.py:2432-2736 | accepts exactly the reports with legal dependencies, exactly covered sections, exact repairs and the right work count |
| Report.ValidatedReportTargets | scripts/newow_weekly_recovery_campaign.py:2359-2373 | the caller adds that no repair is listed twice |
| Report.CountsAgree | scripts/newow_weekly_recovery_campaign.py:2684-2689 | the set total and the plain total agree exactly when no owner interval is covered twice |
| Report.AcceptedCoversExactly | scripts/newow_weekly_recovery_campaign.py:2671-2689 | in every enumerated section each owner interval comes from exactly one dependency and the intervals number exactly the enumerated count |
| Report.LatestIsLatest | scripts/newow_weekly_recovery_campaign.py:2675-2682 | the kept through is reached and never exceeded, and the kept consumers are all of them |
| Report.RepairsAreWhatIsMissing | scripts/newow_weekly_recovery_campaign.py:2691-2723 | an asset is repaired if and only if it has a downloadable dependency; every repair reaches as far as the farthest of them and serves the union of their consumers, each once |
| Report.RepeatedRepairAccepted | scripts/newow_weekly_recovery_campaign.py:2691-2736 | the section check alone accepts a repair listed once more |
| Report.RepairsOneToOne | scripts/newow_weekly_recovery_campaign.py:2359-2369 | with the caller's check an asset has a downloadable dependency if and only if exactly one repair is its own, and that one asks for what its dependencies ask for |

## Left out

- Journal bytes: torn or short lines, size limits, file modes and directory checks; a durable write happened, did not, or happened and then reported an error.
- JSON shape checks (types, patterns, limits) of every reader and validator; typed values replace them.
- The validity of a reloaded source request, and the evidence and manifest digests of `prepare_campaign`.
- Writer guard, child revalidation, execution identity, git state and subprocesses: arbitrary answers of the world.
- `prepare_bounded_units`, `partition_ordinary_units` and the derivation of prior isolations and partial exceptions.
- Manifest.PrepareCampaign: takes the derived isolations and exceptions as given, and cuts batches of twenty as for daily and weekly campaigns; hourly units, which have neither, are sorted and cut at another size.
- Manifest.PreparedCountsOnce: speaks of daily and weekly campaigns, for the same reason.
- `scripts/newow_recovery_partial_exception.py`: its target set algebra and replay; a partial exception is an identity in the manifest.
- The replan check, input availability, metrics and comparator evidence around `_validated_execution`; only the settlement is modelled.
- Coordinator: `park`, the frozen incident scopes and the time checks, which appear as one answer of the world before each step.
- Coordinator.AnswersAreTrue: says nothing about commits made outside the attempt, because the database is modelled as committing only what this attempt invoked.
- Report: status, reason and bar-count field checks of a dependency, and deferred sections, which are not enumerated.
- Pricing: reading payloads into dated markers (segment lookup, eligibility, selection window); `differences` and `numeric`, whose counts restate their recursion.
- Realign: the fixed target count, the projection invalidation before a publish and the attempt directory; a publish and its commit are one durable step, since a candidate file without its catalog row is never read.
- Realign.Store.Publish: does not model the store's session-boundary authority, because a rewritten month keeps every end and day of the month it replaces.
- Detector.QuietAfterwards: assumes endpoints in the order of their trading days, as the calendar gives them, and takes any stored daily bars of the contract as read; the replay query itself is not modelled.
- RealignTheorems.Converges: holds for stable weekly texts only, because otherwise the run it speaks of is refused (`RealignTheorems.ResumesExactly`); it assumes distinct weeks per contract and one weekly bar per trading day, as the decision file and the store provide.
- Decimal exponents: equal numbers are equal turnovers and the exact Decimal sum is an integer sum; only the digits a turnover prints with are modelled, where the realignment compares text, and a stored number prints with eighteen of them (the scale of the stored decimals).
- QualityRepair: the daily proof of a bad week (endpoints, classifications, revision digest) is one answer of the world; the scope check of a packet is replaced by well-formed scopes.
- QualityRepair.Prepared: whether the daily proof holds is one answer of the world; a missing daily partition is reported without naming which of the daily checks failed.
- Dispatch: the freeze of manifest and worktree, and the log content; a receipt that no longer matches its artifact is an answer of the world.
- Maintenance.Guard.Open: does not model the deployment lock taken first, nor the file checks of the owner, which are one answer of the world.
- Maintenance: the hooks' own bodies, `freeze_catchup_plan` and progress callbacks; the parked owner is unchanged or not. What a tick does to the window is any list of checks and refreshes, and it may leave any hooks.
- `scripts/reference_p9_warmup_campaign.py`, the recording and formula scripts and the acceptance summaries.
