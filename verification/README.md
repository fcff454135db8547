# Verified model of the after-hours lab

This Dafny project models the deterministic cores of the after-hours earnings lab and proves
what they promise. Each core is modelled in the form its code has: engines and loops as methods
proved against specification functions, objects and tables as classes whose methods state their
whole new state, protocols as state machines over all runs. The laws are lemmas about the
specification functions; the `Answers` modules say what each main operation answers in terms of
its inputs alone, without naming the functions that compute it.

- **Reactions** (`Bars`, `Reactions`, `ReactionLaws`, `ReactionCausality`, `ReactionEnvelope`,
  `ReactionPrices`, `ReactionAnswers`): the fixed-window classifier of a postmarket move, what each
  class means, what it may depend on and which bounds it respects.
- **Feature table** (`FeatureRow`, `FeatureLedger`): the stored row against its CHECK constraints,
  and the insert, retract and reinsert ledger over arbitrary runs.
- **Studies** (`Filters`, `FilterConditions`, `FilterLaws`, `CanonicalFilters`, `Cohort`,
  `CohortOrder`, `CohortLaws`, `CohortAnswers`, `Registry`, `RegistryLaws`, `RegistryAnswers`): the
  cohort filter in its two forms, the staged materialiser, and the sealed development and
  out-of-sample protocol.
- **Following-session outcomes** (`Outcomes`, `OutcomePresence`, `OutcomeLaws`, `OutcomeAnswers`,
  `OutcomeDigest`, `OutcomeStore`, `OutcomeColumns`): exact-bar labels, a status that depends on the
  clock only until it is final, and batched insert-only storage.
- **Live collection** (`Capture`, `CandleFolds`, `CaptureLaws`, `Gateway`, `Monitor`,
  `MonitorLaws`): streaming candles, the retrying client under every interleaving, and the monitor
  daemon.
- **Calendar and queries** (`Reconcile`, `ReconcileLaws`, `ReconcileAnswers`, `Query`, `QueryLaws`,
  `QueryAnswers`): upserts and reconciliation of re-dated quarters, and the query string of a
  filter.

Prices and percentages are reals, times are integers on one clock, tables are sequences or maps
with the UNIQUE, CHECK and ON CONFLICT rules their SQL states, and digests are compared through the
values they are taken of. `dafny verify dfyconfig.toml` checks the whole project.

## Where the code and its promises part

Each of these is proved as an exact condition on the input, beside a lemma with a concrete input
that fails it.

- The order of input bars can change which defect a rejected event names; it changes nothing else
  (`ReactionCausality.ShuffleExactly`, `ReactionCausality.TwoDefectsOrderDependent`).
- Checkpoints, volumes and triggers never look ahead, but a signal is stored only when the rest of the
  window confirms it, so later bars decide whether an early trigger is stored at all
  (`ReactionCausality.NoLookAhead`, `ReactionCausality.LaterBarDecidesSignal`).
- The maximum adverse excursion is clipped at zero, so it leaves the window's range when no bar trades
  back to the pre-close (`ReactionEnvelope.ReactionEnveloped`, `ReactionEnvelope.AdverseOutsideWindow`).
- The engine never checks that bars start on whole minutes, and the feature table relies on it
  (`FeatureRow.RowFitsTable`, `FeatureRow.OffMinuteRowFails`).
- Retracting a stale row names no classifier version, so it can retract the live row of another
  classifier without replacing it (`FeatureLedger.ReplaceKeepsLive`, `FeatureLedger.ReprocessKeepsLive`,
  `FeatureLedger.EarlierClassifierRetracted`).
- A second development result is stopped by the table only, not by the code
  (`RegistryLaws.OnlyDevelopmentCheckFails`, `RegistryLaws.SecondDevelopmentRun`).
- Differing bars of one time make outcome values depend on the order of the bars although the digest
  does not (`OutcomeDigest.DigestDecidesBarsExactly`, `OutcomeDigest.RepeatedTimeIsOrderDependent`);
  status and missing fields never do, and the status is insufficient.
- An outcome computed from a non-positive price is labelled insufficient and then refused by the
  table's price checks, which aborts the whole run (`OutcomeStore.AcceptedExactly`,
  `OutcomeStore.ZeroLowRefused`, and the aborted runs of `OutcomeStore.OutcomeTable.Persist`).
- A tick that arrives after its minute was written never reaches the candle
  (`CaptureLaws.BatchAgreement`, `CaptureLaws.LateTickLost`).
- The reconciliation is documented to leave a quarter its one live event; it leaves none when no
  event is recorded on the listed date (`ReconcileLaws.OneLiveExactly`, `ReconcileLaws.QuarterLeftWithout`).
- A query string reproduces only filters whose offset starts a page and whose limit is set and at
  most 1000 (`QueryLaws.RoundTripExactly`, `QueryLaws.OffsetInsidePage`).

## Hypotheses

- Prices by which the code divides are not zero: outcome evidence must be `Computable` (reference
  close not zero, expected minutes positive).
- Alignment laws assume bar timestamps that are whole minutes from the start of the phase, and
  feature rows assume that covered phases carry a response hash and a collection mode.
- Order-independence laws assume the uniqueness that the tables' primary keys give: one row per
  event, one outcome per event and digest.
- The monitor's calendar names some session after every day; its log law assumes a clock that
  never runs backwards.

## Model

| member | source | states |
|---|---|---|
| Reactions.CheckpointBar | src/afterhours_lab/reactions.py:145-159 | the early-exit loop over bars returns the bar and age that the checkpoint specification gives |
| ReactionLaws.CheckpointIsLatest | src/afterhours_lab/reactions.py:145-159 | a checkpoint is the latest bar at or before its target, at most ten minutes old, and is absent exactly when no bar is that recent |
| Bars.Deduplicate | src/afterhours_lab/reactions.py:188-198 | the dictionary loop keeps, in time order, the first bar supplied for each timestamp |
| Bars.DeduplicatedAt | src/afterhours_lab/reactions.py:188-198 | looking a time up after deduplication finds the first bar supplied for it, and no time is lost |
| Bars.DeduplicatedLossless | src/afterhours_lab/reactions.py:336-340 | the size comparison detects a duplicate exactly when two bars share a timestamp; otherwise nothing is dropped |
| Reactions.InvalidBarReason | src/afterhours_lab/reactions.py:217-230 | the first defect in input order, if any bar has one |
| Reactions.Screen | src/afterhours_lab/reactions.py:284-365 | the gates reject in the written order, with the first reason that applies |
| Reactions.FixedHorizons | src/afterhours_lab/reactions.py:369-388 | returns at the six horizons and one flag for each carried checkpoint |
| Reactions.PathExtremes | src/afterhours_lab/reactions.py:482-488 | direction-adjusted highs and lows of every bar after the signal |
| Reactions.ComputeReactionFeatures | src/afterhours_lab/reactions.py:267-549 | the whole engine, step by step, computes the specified features for every evidence |
| ReactionAnswers.AcceptedExactly | src/afterhours_lab/reactions.py:284-365 | an event is accepted exactly when both phases are covered, adjacent and read after they ended, no flag is fatal, every bar is well formed inside its phase with one bar a time, the study fits its phase with five bars, and the final regular minute is there |
| ReactionAnswers.RejectedAnswer | src/afterhours_lab/reactions.py:233-264 | a rejected event stores no measure and no signal, and names the first gate it fails |
| ReactionAnswers.FeaturesInPrices | src/afterhours_lab/reactions.py:366-549 | an accepted event's stored values, told in prices: each horizon from the latest bar less than eleven minutes old, volumes, weighted price and window extremes; and, from the first close two percent away, the delay, initial return, best and worst move reached by later highs and lows, the share given back at the last close, the class or the reason for none |
| ReactionAnswers.FlagsInPrices | src/afterhours_lab/reactions.py:369-382 | a checkpoint is flagged as carried exactly with the age in minutes of the bar it was carried from |
| ReactionAnswers.CoverageInPrices | src/afterhours_lab/reactions.py:201-214 | stored coverage counts the study's bars of 105, cut at 105 only without a verdict |
| ReactionLaws.RetracementMeaning | src/afterhours_lab/reactions.py:495-501 | retracement passes fifty percent exactly when the terminal return is below half the favorable excursion |
| ReactionLaws.WhipsawMeaning | src/afterhours_lab/reactions.py:502-514 | the whipsaw test holds exactly when closes from the signal on reach two percent on both sides |
| ReactionLaws.TerminalCheckpoint | src/afterhours_lab/reactions.py:369-382 | when every bar starts by minute 104 the 105-minute checkpoint is the last close of the window |
| ReactionLaws.ClassificationMeaning | src/afterhours_lab/reactions.py:462-549 | for minute-aligned accepted evidence, a reaction is stored exactly when the window confirms its trigger, no-trigger exactly when a complete window never reaches the threshold, and each class exactly by the two-sided test, half of the best move, and the delay, read from the stored values |
| ReactionLaws.RetentionKept | src/afterhours_lab/reactions.py:277-283 | a row stored as continuation or delayed keeps the signal's sign and at least half of the best and of the initial move; a fade ends below half; a whipsaw crossed both sides |
| ReactionCausality.NoLookAhead | src/afterhours_lab/reactions.py:369-426 | accepted events that agree up to a time store the same return, volume and carry flag for every horizon due by then and fire the same trigger; a signal known by then is stored for the other event too exactly when its window confirms the trigger, which otherwise stores none |
| ReactionCausality.LaterBarDecidesSignal | src/afterhours_lab/reactions.py:396-454 | two concrete accepted events alike through the first hour, with one trigger, of which only the one with a bar near the cutoff stores a signal |
| ReactionCausality.TriggerBarRange | src/afterhours_lab/reactions.py:421-519 | changing only the high or low of the trigger bar never changes class, excursions, retracement or delay |
| ReactionCausality.ShuffleExactly | src/afterhours_lab/reactions.py:217-230 | no reordering of the input bars can change the features exactly when coverage already rejects or all defects of a phase are of one kind |
| ReactionCausality.TwoDefectsOrderDependent | src/afterhours_lab/reactions.py:217-230 | concrete evidence with two kinds of defect whose reason changes with the order of its bars |
| ReactionEnvelope.ReactionEnveloped | src/afterhours_lab/reactions.py:421-500 | a signal is stored exactly when the window confirms one; its return and favorable excursion lie inside the stored window, and the adverse one does exactly when some bar trades at the pre-close or beyond it, seen from the side the trigger bar closed on |
| ReactionEnvelope.AdverseOutsideWindow | src/afterhours_lab/reactions.py:489-490 | a concrete accepted event, wholly above its pre-close, whose stored adverse excursion lies outside the stored window |
| ReactionEnvelope.StoredMeasuresBounded | src/afterhours_lab/reactions.py:369-395 | an accepted event's stored checkpoint returns and volume-weighted price lie inside its stored window, and its stored volumes never fall from a horizon to a later one |
| FeatureRow.RowFitsTable | src/afterhours_lab/db/migrations/007_earnings_reaction_features.sql:93-195 | a computed row satisfies every CHECK exactly when the event is rejected, or its window lacks a checkpoint, volume or a bar after the trigger, or holds at most 105 bars and any trigger bar starts by the last minute of the study |
| ReactionAnswers.RowInPrices | src/afterhours_lab/persist_reactions.py:257-328 | every column of an accepted event's row holds the value its name promises; up and down are the side the trigger bar closed on |
| ReactionAnswers.RowFrame | src/afterhours_lab/persist_reactions.py:241-328 | every row, accepted or rejected, names its event, versions, study window, bar count and the responses the bars came from |
| FeatureRow.AlignedRowFitsTable | src/afterhours_lab/persist_reactions.py:257-328 | every row built from minute-aligned, identified evidence satisfies every CHECK |
| FeatureRow.RejectedRow | src/afterhours_lab/persist_reactions.py:257-328 | a rejected event's row always satisfies every CHECK |
| FeatureRow.OffMinuteRowFails | src/afterhours_lab/db/migrations/007_earnings_reaction_features.sql:118-121 | concrete accepted evidence off the whole minute whose row the table refuses |
| FeatureLedger.Ledger.PersistFeatures | src/afterhours_lab/persist_reactions.py:342-363 | inserts one row per event unless a live row of its version exists, and counts the inserts |
| FeatureLedger.Ledger.ReprocessStaleCoverage | src/afterhours_lab/reprocess_stale_coverage.py:108-156 | retracts and reinserts exactly the stale rows whose evidence digest moved, and reports them with their new status beside the unchanged ones |
| FeatureLedger.RunKeeps | src/afterhours_lab/db/migrations/012_reaction_features_retraction.sql:1-24 | over every interleaving each version has at most one live row, rows are only added or stamped, and stored values never change |
| FeatureLedger.UnchangedWritesNothing | src/afterhours_lab/reprocess_stale_coverage.py:118-128 | reprocessing evidence with an unchanged digest writes nothing |
| FeatureLedger.ReprocessIdempotent | src/afterhours_lab/reprocess_stale_coverage.py:76-156 | a second reprocessing over the same evidence writes nothing |
| FeatureLedger.StaleExactly | src/afterhours_lab/reprocess_stale_coverage.py:76-105 | a run works on exactly the live rows of the current versions that were insufficient for missing coverage |
| FeatureLedger.StaleInOrder | src/afterhours_lab/reprocess_stale_coverage.py:84-93 | stale rows are worked on by symbol and then by date |
| FeatureLedger.DigestExactly | src/afterhours_lab/persist_reactions.py:204-232 | with one bar a time the digest moves exactly when a response, a bound or a bar does, never for the order of bars |
| FeatureLedger.ReplaceKeepsLive | src/afterhours_lab/reprocess_stale_coverage.py:130-156 | a replacement keeps every live version live exactly when its UPDATE names no live row but those of the version it reinserts |
| FeatureLedger.ReprocessKeepsLive | src/afterhours_lab/reprocess_stale_coverage.py:76-156 | a whole reprocessing keeps every live version live exactly when every live row it retracts, of the event of a stale row whose evidence moved, is of the current classifier |
| FeatureLedger.LiveAfterAll | src/afterhours_lab/reprocess_stale_coverage.py:108-156 | which versions are live after a whole reprocessing: one that shares event, feature and detector with a moved stale row only as the current classifier, any other as before |
| FeatureLedger.ReplacedEntries | src/afterhours_lab/reprocess_stale_coverage.py:130-156 | a moved stale row stamps exactly the live entries of its event, feature and detector, with the digest they had and the digest the evidence has now, and the recomputed row is then live |
| FeatureLedger.OneClassifierStaysLive | src/afterhours_lab/reprocess_stale_coverage.py:130-156 | over every interleaving, while one classifier version is stored beside the current feature and detector versions, every version that had a live row has one, and the premise holds again |
| FeatureLedger.OtherClassifierLost | src/afterhours_lab/reprocess_stale_coverage.py:130-145 | a live row of another classifier generation is retracted and not replaced |
| FeatureLedger.EarlierClassifierRetracted | src/afterhours_lab/reprocess_stale_coverage.py:108-156 | a concrete table of two classifier generations that a whole reprocessing leaves without a live row of the earlier one |
| FeatureLedger.RunStorable | src/afterhours_lab/persist_reactions.py:342-363 | over runs on aligned, identified evidence no insert breaks a constraint |
| Filters.ParamBuilder.Add | src/afterhours_lab/research/filters.py:64-76 | appends the parameter and returns its one-based placeholder |
| Filters.ScopeSql | src/afterhours_lab/research/filters.py:185-207 | emits the scope clauses, numbered from the builder's position, and appends exactly their values |
| Filters.RefinementSql | src/afterhours_lab/research/filters.py:209-249 | emits one clause for each refinement set, in order, with placeholders that continue the builder |
| Filters.BuildCohortStatement | src/afterhours_lab/research/datasets.py:608-637 | one builder, carried through versions, scope and refinement, yields the statement whose meaning is proved |
| Filters.RefinementExclusionReasons | src/afterhours_lab/research/filters.py:282-334 | the row test, as loops, returns the specified codes in order |
| FilterConditions.RefinementAgrees | src/afterhours_lab/research/filters.py:209-334 | whatever else the builder holds, the statement is TRUE of a row in three-valued logic exactly when the row test returns no reason |
| FilterConditions.ReasonMeaning | src/afterhours_lab/research/filters.py:282-334 | each exclusion code is recorded exactly when its own bound is set and the value is absent or outside; a move counts the same in both directions |
| FilterConditions.RefinementMeaning | src/afterhours_lab/research/filters.py:282-334 | a row passes the refinement exactly when no bound excludes it |
| FilterLaws.StatementMeaning | src/afterhours_lab/research/datasets.py:608-637 | a built cohort statement fetches exactly the rows in scope without an exclusion reason |
| FilterLaws.UniverseThenTest | src/afterhours_lab/studies.py:243-259 | fetching the universe and applying the row test gives the rows, in order, that the refined statement fetches itself |
| CanonicalFilters.CanonicalExactly | src/afterhours_lab/research/filters.py:256-271 | two filters share a canonical record exactly when they differ only in presentation and in order and repetition of lists |
| CanonicalFilters.CanonicalDecides | src/afterhours_lab/research/filters.py:259-279 | filters with one canonical record have the same scope and the same reasons for every row |
| Cohort.ChooseOutcomes | src/afterhours_lab/studies.py:297-306 | grouping and picking gives each event its preferred outcome |
| Cohort.MaterializeStage | src/afterhours_lab/studies.py:276-439 | the materialiser, step by step, computes the specified record or failure |
| CohortAnswers.StageCounted | src/afterhours_lab/studies.py:276-439 | a stage's record by counting: the frozen threshold is the median of the included delays, the groups and their means split at it, counts, gates and decision follow |
| CohortAnswers.IncludedExactly | src/afterhours_lab/studies.py:308-341 | an event is a member exactly when no bound excludes it, its feature is complete with a delay, and its chosen outcome is complete with a close |
| CohortAnswers.MemberRecorded | src/afterhours_lab/studies.py:308-341 | a member's row: identity, versions and evidence, and exactly the reasons that hold of it |
| Cohort.CompletePreferred | src/afterhours_lab/studies.py:300-306 | an event with a complete outcome gets a complete one |
| Cohort.MemberCheck | src/afterhours_lab/db/migrations/010_phase5_studies.sql:234-235 | a member is included exactly when it has no reasons, as the members table demands, and exactly when feature, outcome and refinement all pass |
| CohortOrder.ResultForgetsOrder | src/afterhours_lab/studies.py:276-439 | permuting universe and outcome rows leaves the canonical record unchanged, given unique event keys and digests |
| CohortLaws.DevelopmentSplit | src/afterhours_lab/studies.py:344-365 | the frozen median puts at least half of the members, rounded up, in the early group; early and late add up to the included |
| CohortLaws.CoverageLifts | src/afterhours_lab/studies.py:378-382 | equal counts in the coverage gate mean that every eligible event is a member |
| CohortLaws.PromotionMeaning | src/afterhours_lab/studies.py:376-400 | an out-of-sample stage promotes exactly when the sample suffices, no eligible event was dropped, both groups exist and the means differ in the preregistered direction |
| CohortLaws.CountsAddUp | src/afterhours_lab/studies.py:370-416 | universe is included plus excluded, and each exclusion code counts the members that carry it |
| CohortLaws.IncludedAreSelected | src/afterhours_lab/studies.py:280-341 | the members of a stage are the rows the selected filter would fetch directly, less those without complete feature or outcome |
| Registry.Registry.RegisterStudy | src/afterhours_lab/studies.py:218-240 | registers a plan once; different canonical content under the key is refused; a dry run changes nothing |
| Registry.Registry.EvaluateStudy | src/afterhours_lab/studies.py:442-565 | one evaluation: refusals in the written order, then at most one appended result |
| RegistryAnswers.RegisterAnswer | src/afterhours_lab/studies.py:218-240 | each reply to a registration, exactly, and that only a new plan under a free key changes the store |
| RegistryAnswers.NotRegisteredExactly | src/afterhours_lab/studies.py:450-452 | an evaluation is refused as unregistered exactly when no plan or a different one is stored under its key, and then changes nothing |
| RegistryAnswers.EvaluateAnswer | src/afterhours_lab/studies.py:442-480 | each reply to an evaluation, read off the registered plan, the seal, the computed stage, the frozen rule and the stored results, in that order |
| RegistryAnswers.StoredWereRegistered | src/afterhours_lab/studies.py:442-565 | over every run, each stored result is the computed stage of one of the run's evaluations, under the rule of the earlier results, for the very plan stored under its key |
| RegistryAnswers.PlansWereRegistered | src/afterhours_lab/studies.py:218-240 | over every run, each stored plan is the canonical content of one of its registrations |
| RegistryLaws.EveryRunStaysSealed | src/afterhours_lab/studies.py:450-475 | over every sequence of calls a study has one rule, generations 1..n, at most one out-of-sample result naming an earlier development one, and with the table's checks at most one development result |
| RegistryLaws.OnlyDevelopmentCheckFails | src/afterhours_lab/db/migrations/010_phase5_studies.sql:145-206 | the table changes the answer of an evaluation exactly when it would have stored a second development result or a result without disclosures |
| RegistryLaws.SecondDevelopment | src/afterhours_lab/studies.py:464-475 | on any history the code inserts a second development result that is new and keeps the frozen rule; the table refuses it |
| RegistryLaws.SecondDevelopmentRun | src/afterhours_lab/studies.py:442-480 | registering a plan and evaluating its development stage before and after a corrected outcome was stored beside the first one stores two development results without the table, one with it |
| RegistryLaws.RunExtends | src/afterhours_lab/db/migrations/010_phase5_studies.sql:255-268 | over every run, plans and results stored at any moment are stored at the end, unchanged and in place |
| RegistryLaws.RepeatIsPresent | src/afterhours_lab/studies.py:466-470 | evaluating the same evidence again, in any row order, finds the stored result and changes nothing |
| RegistryLaws.SamePlanSameResult | src/afterhours_lab/studies.py:173-180 | specifications with equal canonical content compute the same result |
| Outcomes.ComputeOutcome | src/afterhours_lab/outcomes.py:126-321 | the label engine, step by step, computes the specified result |
| OutcomeAnswers.OutcomeInPrices | src/afterhours_lab/outcomes.py:126-250 | every stored price is that of the first bar supplied for its minute, or the extreme or end of its session, and every label multiplies out against the reference close |
| OutcomeAnswers.CompleteLabels | src/afterhours_lab/outcomes.py:126-250 | every label of a complete outcome: one hundred times the gain of the bar at its minute, or of the session's extreme, on the close of the final regular minute |
| OutcomeAnswers.PendingExactly | src/afterhours_lab/outcomes.py:253-269 | an outcome is pending exactly before ten minutes past the expected close while the following session is absent, not over, or not fully observed |
| OutcomeAnswers.WellCoveredExactly | src/afterhours_lab/outcomes.py:233-252 | a regular phase is well covered from ninety-five observed minutes in a hundred |
| OutcomeAnswers.TalliesCounted | src/afterhours_lab/outcomes.py:126-180 | observed and expected minutes and their share, for each phase, present or not |
| OutcomeLaws.CompleteExactly | src/afterhours_lab/outcomes.py:191-269 | a final status is complete exactly when all phases are present and clean, both regular phases reach 0.95, and every exact bar exists |
| OutcomeLaws.StatusCheckHolds | src/afterhours_lab/db/migrations/010_phase5_studies.sql:82-92 | a complete row lacks nothing and has all thirteen values; an insufficient one names something missing |
| OutcomeLaws.LabelsInside | src/afterhours_lab/outcomes.py:186-198 | open, close and horizon returns of a complete outcome lie between the session's low and high returns |
| OutcomeLaws.StatusOverTime | src/afterhours_lab/outcomes.py:253-269 | the status is pending before one instant and one fixed final status from then on |
| OutcomeDigest.DigestDecidesStatus | src/afterhours_lab/outcomes.py:82-123 | evidence with one digest has one final status and one list of missing fields |
| OutcomeDigest.DigestDecidesBarsExactly | src/afterhours_lab/outcomes.py:73-123 | for any coverage row, all supplies of bars with its digest give the same bars to read from exactly when its bars of one time do not differ |
| OutcomeDigest.DigestDecidesResult | src/afterhours_lab/outcomes.py:73-123 | when bars of one time do not differ, the digest decides the whole final result |
| OutcomeDigest.RepeatedTimeIsOrderDependent | src/afterhours_lab/outcomes.py:73-79 | two concrete pieces of evidence with one digest and different reference closes, both insufficient |
| OutcomeDigest.RepeatedTimeIsInsufficient | src/afterhours_lab/outcomes.py:233-269 | evidence that repeats a time in any phase is finally insufficient |
| OutcomeStore.InsertSql | src/afterhours_lab/persist_outcomes.py:91-104 | row-major consecutive placeholders for 1 to 100 rows, any other count refused |
| OutcomeStore.PlaceholdersGiveRows | src/afterhours_lab/persist_outcomes.py:91-104 | resolving the placeholders against the flattened cells gives the rows back |
| OutcomeColumns.ColumnsHold | src/afterhours_lab/persist_outcomes.py:31-86 | every one of the 51 cells of a row is the value of the column it stands under |
| OutcomeStore.OutcomeTable.Persist | src/afterhours_lab/persist_outcomes.py:165-196 | batches of a hundred leave the table and the counts that one-by-one insertion would; a dry run leaves it unchanged; any other run aborts, and changes nothing, exactly when some final evidence read a non-positive price or has unsound coverage |
| OutcomeStore.AcceptedExactly | src/afterhours_lab/db/migrations/010_phase5_studies.sql:9-100 | a final row satisfies the checks exactly when every price read is positive, the coverage counts are sane, and each coverage row names its response and mode; of a complete outcome every price is positive |
| OutcomeStore.ZeroLowRefused | src/afterhours_lab/db/migrations/010_phase5_studies.sql:17-20 | a concrete final outcome with sane coverage whose zero premarket low the table refuses |
| OutcomeStore.LaterRunAddsNothing | src/afterhours_lab/persist_outcomes.py:165-196 | over any sequence of later runs, whatever else they are given, no row is added for evidence that was already final under the same digest |
| OutcomeStore.RunKeepsRows | src/afterhours_lab/persist_outcomes.py:99-104 | no run changes or removes a stored row, and keys stay unique |
| Capture.BarInProgress.Update | src/afterhours_lab/capture.py:102-106 | one tick widens high and low, replaces close and last volume |
| Capture.CaptureRun.Flush | src/afterhours_lab/capture.py:145-192 | writes every ready bar unless its candle exists, and drops it from memory |
| Capture.CaptureRun.Run | src/afterhours_lab/capture.py:195-262 | the polling loop reaches the specified state, failed polls included |
| CandleFolds.FoldMeaning | src/afterhours_lab/capture.py:102-137 | streaming updates equal the batch aggregation: first, greatest, least, last and the volume ends |
| CandleFolds.TickMinute | src/afterhours_lab/capture.py:140-142 | a tick belongs to the whole minute of its event time, or of its receipt without one |
| CandleFolds.CandleVolume | src/afterhours_lab/capture.py:124-137 | a candle's volume is what the counter gained from first to last tick, and unknown when either is unknown or the counter fell |
| CandleFolds.CandlePrices | src/afterhours_lab/capture.py:102-137 | a candle opens at its first and closes at its last price, its high and low are prices of its ticks that no other passes, and its session is that of the first tick, or unknown |
| CandleFolds.CandleSpans | src/afterhours_lab/capture.py:124-137 | open and close lie between low and high, every tick does, and volume is never negative |
| CandleFolds.FinalConserves | src/afterhours_lab/capture.py:145-192 | cut at the flushes, the segments of a key are exactly its ticks in order |
| CaptureLaws.TableMeaning | src/afterhours_lab/capture.py:180-192 | after any run a candle is the one stored before, or the fold of the first segment opened in its session, and nothing is left in memory |
| CaptureLaws.BatchAgreement | src/afterhours_lab/capture.py:214-253 | after any run the candle is the batch fold of the ticks received until its bar was first written; these are all ticks of the minute exactly when none arrives later |
| CaptureLaws.LateTickLost | src/afterhours_lab/capture.py:180-192 | a concrete run whose stored candle misses a tick that arrived after the next minute began |
| CaptureLaws.ObservedHasCandle | src/afterhours_lab/capture.py:236-262 | every observed symbol has a candle |
| Gateway.Client.Request | src/afterhours_lab/gateway.py:68-77 | one request: attempts, ending, and sleeps that are each the draw's share of the attempt's ceiling, with every permit given back |
| Gateway.CeilingGrows | src/afterhours_lab/gateway.py:56-66 | backoff ceilings are non-negative, never shrink and never pass the cap |
| Gateway.CeilingDoubles | src/afterhours_lab/gateway.py:56-66 | the first ceiling is the base delay and each next one twice the last, up to the cap |
| Gateway.EveryInterleavingSound | src/afterhours_lab/gateway.py:68-77 | in every interleaving permits held and free make up the limit, no task exceeds its attempts, and only transient replies are retried |
| Gateway.ProgressExactly | src/afterhours_lab/gateway.py:49-77 | some step is always possible while a task is unfinished exactly when a permit exists or no attempt is allowed |
| Gateway.WorkBounded | src/afterhours_lab/gateway.py:68-94 | N tasks make at most N times the allowed attempts, in boundedly many steps |
| Gateway.EndsAsAlone | src/afterhours_lab/gateway.py:68-77 | a task ends among others as it would alone on the same replies |
| Monitor.SecondsToNextBoundary | src/afterhours_lab/monitor.py:146-158 | the day search terminates when a session lies ahead and returns the specified delay |
| Monitor.BoundaryIsNextActive | src/afterhours_lab/monitor.py:138-158 | from an inactive instant the boundary is the first active instant |
| Monitor.SleepMissesNothing | src/afterhours_lab/monitor.py:146-158 | an idle sleep is positive, bounded, and has no active instant inside |
| Monitor.Daemon.Run | src/afterhours_lab/monitor.py:295-384 | the daemon loop reaches the specified state, trace and exit code |
| MonitorLaws.ReportsNotRepeated | src/afterhours_lab/monitor.py:319-384 | with a monotone clock a date's inactive row repeats only after an active iteration and its no-candidates row only after a cycle that found some |
| MonitorLaws.BackoffNeverShrinks | src/afterhours_lab/monitor.py:350-374 | within a streak of failures waits never shrink and never pass the cap |
| MonitorLaws.IterationWaits | src/afterhours_lab/monitor.py:319-384 | every iteration that leaves the daemon running ends with its wait: an idle sleep that misses nothing, the longest idle sleep after an empty cycle, the interval after another, or the doubled and capped backoff of its failure streak |
| MonitorLaws.IterationDated | src/afterhours_lab/monitor.py:322-384 | an iteration only adds to the log, and only rows of the forced date, or of the day it woke in |
| MonitorLaws.AwakeExactly | src/afterhours_lab/monitor.py:138-143 | awake exactly on session days, from the start to the end of the window, both included |
| MonitorLaws.RunsUntilEnded | src/afterhours_lab/monitor.py:322-384 | a long-running daemon ends exactly at a stop or at a failure that is not transient |
| Reconcile.PlanReconciliation | src/afterhours_lab/calendar_reconcile.py:81-119 | the planning loops compute the specified plan |
| Reconcile.CanonicalMeaning | src/afterhours_lab/calendar_reconcile.py:89-94 | a quarter has a canonical date exactly when all its listings give that one date |
| Reconcile.EventTable.Upsert | src/afterhours_lab/archive_earnings.py:136-194 | inserts or refreshes one row per entry and counts the new ones |
| ReconcileAnswers.UpsertTakes | src/afterhours_lab/archive_earnings.py:136-194 | after one upsert the entry's row has its actuals wherever it gives them, keeps what else was set and its hour, a new row holds the whole entry, and every other key keeps its row |
| ReconcileAnswers.BatchTakes | src/afterhours_lab/archive_earnings.py:136-194 | over a whole batch each key ends with the last actuals given, its former or first given other values, and its former or first hour |
| Reconcile.EventTable.ApplyPlan | src/afterhours_lab/calendar_reconcile.py:168-190 | applies every supersession, then every reinstatement |
| Reconcile.LookupListings | src/afterhours_lab/calendar_reconcile.py:193-214 | collects each symbol's own entries and skips failed look-ups |
| Reconcile.EventTable.Reconcile | src/afterhours_lab/calendar_reconcile.py:217-242 | plans on listings and look-ups, and applies unless dry |
| ReconcileAnswers.EvidenceExactly | src/afterhours_lab/calendar_reconcile.py:193-242 | the evidence is what was listed, and what the look-ups 75 days around a symbol's unlisted live events answered about that symbol |
| ReconcileAnswers.ReconciledRow | src/afterhours_lab/calendar_reconcile.py:98-190 | a row changes only as an after-close event whose quarter is listed on one date: retired from any other date with that date and the time, reinstated on it |
| ReconcileLaws.LiveExactlyOnListedDate | src/afterhours_lab/calendar_reconcile.py:98-119 | after a reconciliation an after-close row of a canonical quarter is live exactly on the listed date, and every other row is untouched |
| ReconcileLaws.SecondPlanEmpty | src/afterhours_lab/calendar_reconcile.py:81-119 | a second plan on the same evidence is empty |
| ReconcileLaws.PlanForgetsOrder | src/afterhours_lab/calendar_reconcile.py:81-119 | the plan is independent of the order of listings and of recorded events |
| ReconcileLaws.OneLiveExactly | src/afterhours_lab/calendar_reconcile.py:9-16 | a canonical quarter is left with at most one live event, and with one exactly when an event is recorded on the listed date |
| ReconcileLaws.QuarterLeftWithout | src/afterhours_lab/calendar_reconcile.py:98-119 | a concrete calendar with one live event whose quarter is left without any |
| ReconcileLaws.SupersededOnEvidence | src/afterhours_lab/calendar_reconcile.py:9-13 | a row is superseded only when the evidence lists its quarter, on another date only |
| ReconcileLaws.FoundWasAnswered | src/afterhours_lab/calendar_reconcile.py:193-214 | a failed look-up contributes no evidence |
| ReconcileLaws.RunsKeep | src/afterhours_lab/archive_earnings.py:213-240 | over any sequence of runs no row disappears, hour, estimates and fiscal quarter stay once set, actuals never return to null, and the supersession check holds |
| Query.ParseEventFilter | src/afterhours_lab/web/params.py:75-143 | the parser computes the specified filter or error |
| Query.FilterToQuery | src/afterhours_lab/web/params.py:146-181 | the printer emits the specified pairs, overrides applied in order |
| QueryAnswers.RefusalExactly | src/afterhours_lab/web/params.py:75-143 | the parser names the first key, in reading order, whose value is no date, number or whole number where one is due, a limit outside 1 to 1000 or a page below 1 |
| QueryAnswers.InvalidExactly | src/afterhours_lab/research/filters.py:137-172 | a query without a malformed value is refused exactly when a lower bound is given above its upper one, a coverage is no share, or an order, list value or symbol is unknown |
| QueryAnswers.ParsedFields | src/afterhours_lab/web/params.py:75-143 | a parsed filter holds under every bound exactly what the query gives for it, and pages by the limit and page given, else 100 and 1 |
| QueryAnswers.ParsedTexts | src/afterhours_lab/web/params.py:47-58 | a parsed filter lists exactly the trimmed non-empty texts between the commas of all values given, each once, symbols in upper case, and takes order and versions as given, else the defaults |
| QueryLaws.RoundTripExactly | src/afterhours_lab/web/params.py:75-181 | a printed filter parses back to itself exactly when its limit is set and at most 1000, its offset starts a page, and its versions are trimmed |
| QueryLaws.OffsetInsidePage | src/afterhours_lab/web/params.py:141-181 | a concrete filter whose own query string loses its offset |
| QueryLaws.PageLink | src/afterhours_lab/web/params.py:141-181 | printing with a page override describes the same filter at that page's offset |

## Left out

- Database driver, HTTP, argument parsing, logging, Telegram and status files: input and output only.
- Time zones and daylight saving: one linear clock; the 16:00 Eastern start of a reaction study is a
  boolean of the evidence, and the calendar is a predicate on days.
- Floating-point rounding, NaN and infinity: prices are reals, and the finiteness tests are dropped.
- SHA-256 and canonical JSON: equality of digests is equality of the values digested.
- Random jitter: a delay is any draw from the interval the code draws from.
- Reason and rationale texts outside the exclusion codes: data types instead of sentences.
- Inserting live quotes: its placeholder numbering is the scheme proved for outcome rows.
- Ordering and paging of a cohort fetch: rows come in the order of the joined table, which the
  materialiser is proved not to depend on.
- The join that feeds a cohort: a function from a version triple to rows.
- Concurrency of two registry calls or two archive runs: calls are sequential, as the advisory locks
  make them.
- Decimal, ISO-date and URL text forms in queries: numbers and dates travel as typed tokens; upper
  case and blanks are modelled for the ASCII range and two further blanks only.
- Reactions.InvalidBarReason: does not model the finiteness test and the naive-timestamp defect, because
  prices are reals and times are points on one clock.
- Reactions.Screen: does not model the gate on naive phase bounds, and reads the 16:00 start as a boolean.
- Reactions.ComputeReactionFeatures: inherits what the screen leaves out.
- Filters.BuildCohortStatement: stops after the refinement; the limit and offset placeholders of a fetch are left out.
- FilterLaws.StatementMeaning: says which rows a statement fetches, not their ordering, limit and offset.
- Registry.Registry.EvaluateStudy: stores the members as the cohort of the record; their own table and its
  version trigger are not modelled.
- Gateway.Client.Request: is called with a free permit; waiting for one is modelled by the interleaved tasks.
- Query.ParseEventFilter: takes numbers and dates as typed tokens and does not parse their text.
- Query.FilterToQuery: emits typed pairs and does not format numbers or encode a URL.
- QueryLaws.RoundTripExactly: is about typed pairs, not about the query text.
- QueryLaws.OffsetInsidePage: is about typed pairs, not about the query text.
- QueryLaws.PageLink: is about typed pairs, not about the query text.
- Wall-clock deadline of a capture run: a run is any finite sequence of polls.
- Watchlist, liquidity filter, collectors, notebooks, web pages and charts: thin wrappers or
  presentation, easy beside the cores above.
