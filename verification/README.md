# A verified model of the novel runtime's contracts

This Dafny project models the parts of the repository whose correctness depends on more than one function at a
time, and proves what they promise. Each component has a specification in plain functions and predicates, the
loops and objects of the code proved to compute it, and theorems about the specification.

* **Writer history** (`WriterHistory`, `WriterPass`, `WriterCompaction`, `WriterProtocol`, `WriterRecovery`,
  `WriterLimits`, `WriterReceipts`, `WriterContextManager`): the compaction of the Writer's message history, which
  runs on its own output, and the accounting of repeated errors around it.
* **Source segments and the audit** (`Segments`, `SegmentTiling`, `AuditSpec`, `AuditSweep`, `AuditOrder`,
  `Auditor`): two independent sweeps over the same half-open ranges, and the order of the story.
* **Adaptation revisions** (`RevisionSpec`, `RevisionTargets`, `RevisionCoverage`, `RevisionEvents`,
  `RevisionValidator`, `RevisionChain`, `RevisionStory`, `RevisionMerge`, `RevisionMergeValidity`): the validator of
  a candidate plan against its base as a transition relation, chains of accepted plans, and the detail merge.
* **Retry and failover** (`Swappable`, `FallbackSpec`, `FallbackProtocol`, `FallbackModel`, `Failover`): the
  protocol of one request. What the backends, the clock and the caller do at the n-th attempt is a function of n,
  so that the theorems hold for all of their behaviours. The controller is any choice among the candidates.
* **Model routes** (`ModelRoutes`, `ModelSwitches`, `ModelSets`): the live wrappers as objects, against the pure
  configuration and its changes.
* **Smaller parts**: the comparison of audit runs (`AuditDiff`, `AuditCompare`), the repair of chapter budgets
  (`Budget`), comment stripping (`Jsonc`) and layered configuration (`ConfigLayers`, `ConfigMerge`).

`Text`, `Sequences` and `Sorting` hold what they share. `dafny verify dfyconfig.toml` checks the project.

Where the code does not meet a promise on all inputs, the model keeps the code's behaviour, gives an input that
shows it, and proves the exact condition: rewritten histories (`WriterCompaction.SecondPass`), lost receipts
(`WriterReceipts.ReceiptSurvivesIff`), forgotten write errors (`WriterRecovery.DecisionInvisible`), untrimmed chapter
IDs (`RevisionChain.ChainKeeps`), effort-only stage entries (`ModelSwitches.AlwaysInStepIff`), shared chapter numbers
(`Budget.RepairReachesGoal`) and empty daily times (`ConfigLayers.MergeAssociative`).

## Model

| member | source | states |
|---|---|---|
| WriterCompaction.SecondPass | internal/agents/writer_context_manager.go:255-314 | A second pass with the same options reports work exactly when the newest non-blank write receipt was exposed (announced, in a message whose calls all have results, next to a call that stays); otherwise the second pass returns its input. |
| WriterCompaction.PassSettles | internal/agents/writer_context_manager.go:411-445 | After a pass the uncleared results number at most `keep`, have pairwise different keys, and contain no work package when work packages are dropped. |
| WriterCompaction.NextPlan | internal/agents/writer_context_manager.go:255-336 | What the second pass finds: nothing left to clear and no uncleared write result, so no removal and no new receipt. |
| WriterProtocol.CompactionKeepsProtocol | internal/agents/writer_context_manager.go:255-314 | For every history and all options: calls and results disappear exactly for the removed write exchanges, all other calls, results and messages keep their order, and a history whose results answer earlier unique calls stays one. |
| WriterProtocol.KeptCallKeepsResult | internal/agents/writer_context_manager.go:452-547 | A call that had a result keeps it if it stays, and disappears only together with it. |
| WriterProtocol.NoMessageEmptied | internal/agents/writer_context_manager.go:505-547 | An assistant message that is empty after compaction was empty before; none that announced a call is emptied. |
| WriterProtocol.WindowRespected | internal/agents/writer_context_manager.go:411-445 | At most `keep` collected results stay uncleared after compaction, whether or not the pass applied. |
| WriterProtocol.ReceiptShown | internal/agents/writer_context_manager.go:316-336 | The newest write result, when not blank, stands verbatim in the output, in the message that announced the call. |
| WriterProtocol.ReceiptSurvives | internal/agents/writer_context_manager.go:255-336 | When that message announced only removed write calls, the receipt outlives every later sequence of appended messages and passes with any options. |
| WriterReceipts.ReceiptSurvivesIff | internal/agents/writer_context_manager.go:255-336 | After a pass the newest non-blank receipt outlives every later sequence of appended messages and passes exactly when some message that shows it announces no call; otherwise answering every call lets one pass remove it. |
| WriterRecovery.FingerprintReadBack | internal/agents/writer_context_manager.go:381-384 | A stored error fingerprint is read back unchanged exactly when the tool name has no leading blank. |
| WriterRecovery.ErrorsKept | internal/agents/writer_context_manager.go:287-301 | Compaction forgets exactly the errors of the write exchanges it removes; every other error keeps its class and its place, and the recovery marker stays. |
| WriterRecovery.KeysKeptIff | internal/agents/writer_context_manager.go:287-301 | The errors of the turn are the same after compaction exactly when no call the pass removes failed in it. |
| WriterRecovery.DecisionInvisible | internal/agents/writer_context_manager.go:613-647 | The recovery decision is the same before and after compaction exactly when the errors called for none, or those of the calls that stay still do; when it changes, the turn passes as fine. |
| WriterRecovery.RestartOpens | internal/agents/writer_context_manager.go:671-689 | A clean restart leaves a history whose current turn opens with the restart message. |
| WriterRecovery.NoSecondRestart | internal/agents/writer_context_manager.go:124-141 | After a clean restart, while only assistant and tool messages are appended and projections run in between, no second restart occurs, and a projection ends as exhausted exactly when errors repeat. |
| WriterRecovery.DispatchKeepsTurn | internal/agents/writer_context_manager.go:91-110 | Cutting the history to the newest dispatched task does not change the current turn. |
| WriterLimits.ExposedReceiptIsStripped | internal/agents/writer_context_manager.go:505-536 | Whenever a receipt is exposed, the next pass removes all text from the message that carries it. |
| WriterLimits.MixedMessageExposes | internal/agents/writer_context_manager.go:452-547 | A message that announces a write and another call, both answered, is such a case: the second pass rewrites the history again. |
| WriterLimits.WriteErrorsForgotten | internal/agents/writer_context_manager.go:303-314 | A write that fails twice leads to a restart, but not when a pass runs between the two failures. |
| WriterLimits.WriteErrorsHidden | internal/agents/writer_context_manager.go:303-314 | A turn with two equal write failures calls for a restart, and for nothing after a pass with any options. |
| WriterLimits.BlankNameMerges | internal/agents/writer_context_manager.go:649-669 | A tool name with a leading blank loses it when its fingerprint is read back and then counts as the plain tool. |
| WriterContextManager.CollectResults | internal/agents/writer_context_manager.go:338-379 | The loop pairs every result with the latest earlier call of its ID, in order. |
| WriterContextManager.ProtectRecent | internal/agents/writer_context_manager.go:411-445 | The loop keeps the newest results of pairwise different keys within the window, and the first work package when asked to. |
| WriterContextManager.LatestReceipt | internal/agents/writer_context_manager.go:316-336 | The backward loop yields the receipt of the newest uncleared write result, or nothing when that result is blank. |
| WriterContextManager.ClearStale | internal/agents/writer_context_manager.go:276-302 | The in-place loop clears exactly the stale results and stores the class of cleared errors. |
| WriterContextManager.CallSets | internal/agents/writer_context_manager.go:276-314 | The loop computes the sets of stale, removed and completed calls. |
| WriterContextManager.CompactToolHistory | internal/agents/writer_context_manager.go:452-547 | The message loop computes the history pass and reports whether it changed anything. |
| WriterContextManager.CompactPhase | internal/agents/writer_context_manager.go:255-314 | The whole pass, early return included, computes the specified compaction and its applied flag. |
| WriterContextManager.HasMatchingResult | internal/agents/writer_context_manager.go:579-611 | Found exactly when a collected result of a matching tool exists (successful, if required). |
| WriterContextManager.DuplicateEvidence | internal/agents/writer_context_manager.go:220-232 | Found exactly when two uncleared evidence results of one key exist. |
| WriterContextManager.CompletedRationale | internal/agents/writer_context_manager.go:143-176 | Found exactly when a message with text announces calls that all have results. |
| WriterContextManager.RecoveryState | internal/agents/writer_context_manager.go:613-647 | The counting loop decides as specified: two errors of one class or four errors trip, and the marker turns a restart into giving up. |
| WriterContextManager.CurrentTurn | internal/agents/writer_context_manager.go:195-203 | The backward loop finds the history from its last user message on. |
| WriterContextManager.ApplyStrategy | internal/agents/writer_context_manager.go:124-141 | The strategy returns exhausted, the clean restart, or the compacted history, in the order of the code. |
| Segments.MinimumSegments | internal/domain/adaptation_segment.go:64-69 | The least number of segments of at most 5000 runes that can hold the source. |
| Segments.LookupsDecide | internal/domain/adaptation_segment.go:386-401 | Comparing sizes and looking up the left keys decides the equality of clean states as normalised maps. |
| Segments.StatesEqual | internal/domain/adaptation_segment.go:386-401 | On clean states the loop answers whether the normalised maps are equal. |
| Segments.CheckEvents | internal/domain/adaptation_segment.go:229-265 | Reports a missing event exactly for an empty or blank list and a duplicate exactly for a repeated non-blank event, within the list or against earlier segments. |
| Segments.CheckState | internal/domain/adaptation_segment.go:311-341 | Reports an invalid state exactly when a key is blank or two keys agree after trimming. |
| Segments.CheckStates | internal/domain/adaptation_segment.go:267-309 | Reports missing and invalid states, and a discontinuity exactly when two clean neighbouring states differ. |
| Segments.CheckShare | internal/domain/adaptation_segment.go:343-384 | Reports an invalid, gapped, overlapping or overflowing share. |
| Segments.CheckSegments | internal/domain/adaptation_segment.go:124-202 | The sweep reports exactly the specified codes of all segments and of the coverage. |
| SegmentTiling.CheckDecidesTiling | internal/domain/adaptation_segment.go:110-202 | No issue is reported exactly when the segments, in order, tile the source with consecutive numbers, enough segments, globally distinct non-blank events, clean states and matching neighbouring states. |
| SegmentTiling.ValidateSegments | internal/domain/adaptation_segment.go:110-120 | Accepts exactly the tilings. |
| SegmentTiling.EveryRuneOnce | internal/domain/adaptation_segment.go:143-202 | In a tiling every rune of the source lies in exactly one segment, and no other rune in any. |
| SegmentTiling.TotalFollows | internal/domain/adaptation_segment.go:184-202 | The separately checked rune total follows from the tiling. |
| SegmentTiling.EventsDecided | internal/domain/adaptation_segment.go:229-265 | With named events, the running check of repeated events is pairwise distinctness over all segments. |
| AuditSweep.AcceptedIsSilent | internal/adaptaudit/audit.go:165-233 | If the domain check accepts the segments, the audit of the same ranges raises no sequence, count, gap, overlap or range finding, whatever order its unstable sort produces. |
| AuditSweep.SilentSweepCoversOnce | internal/adaptaudit/audit.go:200-233 | If the sweep over any ordered rearrangement is silent and no segment ends past the total, every rune lies in exactly one segment. |
| AuditSweep.StatesCompareAlike | internal/adaptaudit/audit.go:287-298 | On trimmed maps the raw comparison of the audit and the normalised one of the domain agree. |
| AuditSweep.StatesSilent | internal/adaptaudit/audit.go:176-192 | Accepted segments with trimmed states raise no missing or broken state in the audit. |
| AuditOrder.PathGoesBack | internal/adaptaudit/audit.go:405-424 | Along prerequisites of checked events the first chapters strictly decrease. |
| AuditOrder.PrerequisitesAcyclic | internal/adaptaudit/audit.go:405-424 | Prerequisites among checked events never form a cycle, and a chain of them is no longer than the first chapter of its event. |
| AuditSpec.LeastPositive | internal/adaptaudit/audit.go:469-475 | The least positive value, or 0 when there is none. |
| Auditor.SortedPositives | internal/adaptaudit/audit.go:477-488 | Lists the positive values once each, in increasing order. |
| Auditor.Auditor.AuditContracts | internal/adaptaudit/audit.go:165-192 | Adds exactly the contract, sequence and state codes of one source chapter. |
| Auditor.Auditor.AuditCount | internal/adaptaudit/audit.go:193-205 | Adds the insufficient-segments code exactly when the group is smaller than its limits require. |
| Auditor.Auditor.AuditRanges | internal/adaptaudit/audit.go:206-233 | Adds exactly the gap, overlap and range codes of the sweep. |
| Auditor.Auditor.AuditTargets | internal/adaptaudit/audit.go:235-272 | Reports target order exactly when a later binding starts before an earlier one ends, and missing coverage exactly for uncovered required segments. |
| Auditor.Auditor.AuditCausalOrder | internal/adaptaudit/audit.go:405-424 | Reports causal order exactly when a checked event has a dependency without a strictly earlier first chapter. |
| Auditor.Auditor.ValidateEvidence | internal/adaptaudit/audit.go:121-152 | Reports invalid evidence exactly when some item names no artifact, has a blank quote or quotes nothing of the artifact. |
| Auditor.Auditor.FirstChapter | internal/adaptaudit/audit.go:461-475 | The least positive target chapter bound to an event, or 0. |
| Auditor.Auditor.Audit | internal/adaptaudit/audit.go:21-42 | A chapter-mode audit passes exactly when evidence, causal order, all sweeps, target order and coverage hold; an unknown mode never passes. |
| RevisionTargets.CheckChapters | internal/domain/adaptation_revision_policy.go:875-924 | Accepts exactly the stable target chapters: named, distinct, numbered in order, fitting their base chapter or justified as new, none lost. |
| RevisionTargets.CheckVolumes | internal/domain/adaptation_revision_policy.go:925-956 | Accepts exactly the stable volumes: named, distinct, consecutive, covering all chapters, source ownership kept, none lost. |
| RevisionTargets.CheckSource | internal/domain/adaptation_revision_policy.go:1007-1060 | Accepts exactly when the frozen fields, the source events and the collected segments are unchanged. |
| RevisionTargets.CollectedSame | internal/domain/adaptation_revision_policy.go:1048-1060 | Collecting keeps the segments of all chapters as a multiset. |
| RevisionCoverage.KnownRunes | internal/domain/adaptation_revision_policy.go:1062-1089 | The known source lengths come from the manifest or, without one, from the base plan. |
| RevisionCoverage.CoverAll | internal/domain/adaptation_revision_policy.go:1090-1124 | The loops check every reference and compute exactly the covered source chapters and the segments of each. |
| RevisionCoverage.CheckCoverage | internal/domain/adaptation_revision_policy.go:1062-1138 | Accepts exactly when all references are known, every known source chapter is covered and, in chapter mode, its segments tile it. |
| RevisionEvents.CheckLedger | internal/domain/adaptation_revision_policy.go:1141-1161 | Accepts exactly when new ledger events are added events and every base event is kept unchanged. |
| RevisionEvents.ClaimChapters | internal/domain/adaptation_revision_policy.go:1174-1214 | Either tallies the owners of every listed event, or some listing is unknown, a relabelled source event, or repeated. |
| RevisionEvents.CompareOwners | internal/domain/adaptation_revision_policy.go:1215-1224 | Accepts exactly when every base ledger event keeps its owner chapter and owning list. |
| RevisionEvents.CheckOwned | internal/domain/adaptation_revision_policy.go:1225-1248 | Accepts exactly when every event has one owner, inside its source lineage, with dependencies owned earlier. |
| RevisionEvents.OwnedOnce | internal/domain/adaptation_revision_policy.go:1174-1235 | When every listing fits and every event has one owner, no event is listed twice. |
| RevisionEvents.CheckEvents | internal/domain/adaptation_revision_policy.go:1140-1258 | The whole event check accepts exactly the specified event contract. |
| RevisionValidator.CheckContracts | internal/domain/adaptation_revision_policy.go:1381-1420 | Accepts exactly when every changed chapter keeps its frozen lists and carries what a revision must carry. |
| RevisionValidator.CheckBudget | internal/domain/adaptation_revision_policy.go:1437-1454 | Accepts exactly the legal word budgets. |
| RevisionValidator.CheckList | internal/domain/adaptation_revision_policy.go:1422-1435 | Accepts exactly the lists without blank or repeated items. |
| RevisionValidator.ValidateRevision | internal/domain/adaptation_revision_policy.go:607-641 | Runs the checks in order and names the first that fails. |
| RevisionChain.AcceptedKeeps | internal/domain/adaptation_revision_policy.go:607-641 | An accepted revision keeps chapters, contracts, volumes, source and target events of its base exactly when it writes every chapter ID as the base does; trimmed IDs suffice, and all but the chapters is kept in any case. |
| RevisionChain.ChainKeeps | internal/domain/adaptation_revision_policy.go:607-641 | Along a chain of accepted revisions no chapter or volume ID is lost, and added flags, preserve, forbidden, rule, relationship and setting fields, source events, segments (as a multiset) and every target event with its owner never change, exactly when no revision writes a chapter ID differently; so in every chain of trimmed plans. |
| RevisionChain.ContractComparedIff | internal/domain/adaptation_revision_policy.go:1381-1400 | Contract lists are compared with the existing target exactly when the raw IDs agree, although targets are matched by trimmed ID. |
| RevisionChain.UntrimmedIdEscapes | internal/domain/adaptation_revision_policy.go:1381-1400 | The validator accepts a one-chapter plan that drops the leading blank of the base chapter ID and replaces its preserve list. |
| RevisionChain.SegmentsReassigned | internal/domain/adaptation_revision_policy.go:1038-1060 | With distinct segment keys the frozen check allows exactly the reassignments of whole segments. |
| RevisionStory.OwnershipIsBijective | internal/domain/adaptation_revision_policy.go:1163-1235 | The event entries of the chapters and the ledger events correspond one to one. |
| RevisionStory.EdgeGoesBack | internal/domain/adaptation_revision_policy.go:1236-1248 | A dependency is owned by a strictly earlier chapter. |
| RevisionStory.DependenciesAcyclic | internal/domain/adaptation_revision_policy.go:1225-1248 | Event dependencies form no cycle, and no chain of them is longer than the number of chapters. |
| RevisionStory.VolumesPartition | internal/domain/adaptation_revision_policy.go:925-949 | The volumes of an accepted plan that has any partition its chapters. |
| RevisionStory.LookupIsTotal | internal/domain/adaptation_revision_policy.go:821-828 | The volume lookup of the merge finds the one volume that holds the chapter. |
| RevisionStory.VolumeOf | internal/domain/adaptation_revision_policy.go:821-828 | The loop computes the lookup. |
| RevisionMerge.MergeDetails | internal/domain/adaptation_revision_policy.go:774-801 | The loop over a copied, overwritten chapter list computes the specified merge or its first error. |
| RevisionMerge.MergeDecided | internal/domain/adaptation_revision_policy.go:774-819 | The merge succeeds exactly when every detail fits the accepted plan, and changes only titles, core events, hooks and scenes. |
| RevisionMerge.MergedAt | internal/domain/adaptation_revision_policy.go:774-810 | Each merged chapter carries the narrative of the last detail for it, or is unchanged. |
| RevisionMerge.OrderIrrelevant | internal/domain/adaptation_revision_policy.go:774-801 | For distinct chapter IDs the order of the details does not matter. |
| RevisionMergeValidity.MergeKeepsAcceptance | internal/domain/adaptation_revision_policy.go:607-810 | A merged plan stays accepted exactly when every chapter that only now differs from the base carries its contract lists and a legal word budget. |
| RevisionMergeValidity.OverlaidReady | internal/domain/adaptation_revision_policy.go:607-810 | In particular when every overlaid chapter was changed already or is ready. |
| FallbackSpec.EffectiveAttempts | internal/bootstrap/config.go:218-230 | The attempt limit always lies between 1 and 30 and is the configured one when that is legal. |
| FallbackSpec.CandidatesAre | internal/bootstrap/runtime_fallback.go:40-66 | The candidates are exactly the usable fallback backends other than the current and the attempted ones, each once. |
| FallbackSpec.Cut | internal/bootstrap/runtime_fallback.go:186-228 | The position of the first terminal event of a stream. |
| FallbackProtocol.SwitchIsNew | internal/bootstrap/runtime_fallback.go:288-303 | A switch goes to a fallback backend that was not attempted. |
| FallbackProtocol.FuelSpent | internal/bootstrap/runtime_fallback.go:274-303 | Every attempt that does not end the request uses up part of a finite allowance. |
| FallbackProtocol.AttemptsBounded | internal/bootstrap/runtime_fallback.go:94-166 | No request makes more attempts than the limit times one plus the number of distinct fallback backends, whatever mixture of failures it meets. |
| FallbackProtocol.SwitchTargetsNew | internal/bootstrap/runtime_fallback.go:274-303 | Every provider switched to differs from the providers of all earlier attempts. |
| FallbackProtocol.OneVisibleAttempt | internal/bootstrap/runtime_fallback.go:124-253 | The caller sees exactly one terminal event, as the last; everything before it comes from the last attempt, in order; no earlier attempt has shown anything. |
| FallbackProtocol.NoRetryAfterOutput | internal/bootstrap/runtime_fallback.go:186-253 | An attempt whose stream carried output before its end is never followed by another. |
| FallbackProtocol.StreamForm | internal/bootstrap/runtime_fallback.go:186-253 | What one stream shows: all events up to its terminal, or none of them, and one terminal. |
| FallbackModel.CandidateProviders | internal/bootstrap/runtime_fallback.go:40-75 | The loop computes the candidates. |
| FallbackModel.RuntimeFallbackModel.NextAfterFailure | internal/bootstrap/runtime_fallback.go:274-303 | Retries, switches or stops as specified, with the error wrapped when it was eligible. |
| FallbackModel.RuntimeFallbackModel.ForwardStream | internal/bootstrap/runtime_fallback.go:186-253 | The loop forwards a stream as specified; preludes wait for output. |
| FallbackModel.RuntimeFallbackModel.GenerateStream | internal/bootstrap/runtime_fallback.go:124-166 | The streaming request terminates, and its output ends a run of the protocol that starts with the primary. |
| FallbackModel.RuntimeFallbackModel.Generate | internal/bootstrap/runtime_fallback.go:94-122 | The plain request is the same protocol over attempts that open no stream. |
| Failover.FailoverModel.Relay | internal/bootstrap/models.go:651-708 | Relays one stream unchanged, or reports the failure it met before any event. |
| Failover.FailoverModel.PickFallback | internal/bootstrap/models.go:740-763 | The first usable other target for an eligible failure. |
| Failover.FailoverModel.GenerateStream | internal/bootstrap/models.go:651-708 | Shows one inner attempt whole and fails over at most once, only before any event, moving the shared primary. |
| Failover.FailoverStaysInvisible | internal/bootstrap/models.go:651-708 | Over a failover model the caller still sees events of one inner attempt and exactly one terminal. |
| ModelRoutes.TidyNames | internal/bootstrap/config.go:860-873 | In a configuration of trimmed names without half entries, an entry selects a pair exactly when it is not effort-only. |
| ModelSets.ModelSet.CurrentStageSelection | internal/bootstrap/models.go:203-212 | The pair the stage shows in a set that follows its configuration, and whether the stage has a wrapper and an entry of its own. |
| ModelSets.ModelSet.StageSelection | internal/bootstrap/models.go:203-212 | What every stage shows, and the client it reaches through at most two wrappers: those of the configuration, except for stages with effort-only entries. |
| ModelSets.ModelSet.EnsureInherited | internal/bootstrap/models.go:437-455 | Stages without a wrapper get one that inherits from their role. |
| ModelSets.ModelSet.RefreshInherited | internal/bootstrap/models.go:457-474 | Stages without an entry are re-pointed at their role; existing wrappers stay in place. |
| ModelSets.ModelSet.Swap | internal/bootstrap/models.go:328-378 | A failed switch changes nothing; a successful one re-points the default or the route, keeps every wrapper object and the fallback targets, and lets each stage without an entry follow its role. |
| ModelSets.AgreementKept | internal/bootstrap/models.go:328-378 | Wrappers that followed the configuration follow the switched one, for every configuration and route. |
| ModelSets.Apply | internal/bootstrap/models.go:328-378 | A switch to a trimmed pair changes the configuration exactly when it is accepted, and the wrappers still follow it. |
| ModelSets.NewModelSet | internal/bootstrap/models.go:391-435 | Fails exactly when the default, an entry that names a model, or one of its fallbacks cannot be created; otherwise the new set follows the configuration. |
| ModelSets.Session | internal/bootstrap/models.go:328-435 | After creation and any sequence of switches: each stage with an effort-only entry shows what it was created with, every other one what the final configuration selects; each reaches a client through at most two wrappers. |
| ModelSwitches.SwitchEffect | internal/bootstrap/models.go:328-378 | An accepted switch changes the selection of a stage exactly when it is one the stage depends on, and then to the new pair; everything else about the stage stays. |
| ModelSwitches.SwitchInStepIff | internal/bootstrap/models.go:457-474 | After one accepted switch of the default, a role or another stage, a stage that showed its selection still does exactly when it has no effort-only entry or inherits what it inherited before. |
| ModelSwitches.RoleSwitchStrands | internal/bootstrap/models.go:457-474 | Switching the role of a stage with an effort-only entry leaves the stage showing the old pair, and, when the role had no model before, sending its requests there. |
| ModelSwitches.AlwaysInStepIff | internal/bootstrap/models.go:457-474 | Through all sequences of switches a stage shows the selection of the configuration exactly when it has no effort-only entry or there is no other pair to switch to. |
| ModelSwitches.AlwaysRoutedIff | internal/bootstrap/models.go:437-474 | Its requests always go to that selection exactly when, besides, its role may name a model from the start. |
| AuditDiff.IntersectScope | internal/adaptaudit/compare.go:156-170 | Fails exactly when no source or no target chapter lies in both scopes. |
| AuditDiff.OverlapIsBoth | internal/adaptaudit/compare.go:156-223 | A chapter lies in the intersected scope exactly when it lies in both; non-positive bounds do not bound. |
| AuditDiff.FindingsConserved | internal/adaptaudit/compare.go:48-90 | Every retained finding of the base occurs in exactly one change as Before and every one of the candidate as After; resolved minus introduced is the difference of their numbers. |
| AuditDiff.SelfUnchanged | internal/adaptaudit/compare.go:48-90 | Comparing a report with itself yields only unchanged findings. |
| AuditDiff.ClassifyReversed | internal/adaptaudit/compare.go:127-139 | Reversing a comparison turns improvements into deteriorations; only mixed changes are deteriorations both ways. |
| AuditCompare.FindingsByFingerprint | internal/adaptaudit/compare.go:92-116 | The loops yield the sorted bucket of every fingerprint and the number of excluded findings. |
| AuditCompare.PairFindings | internal/adaptaudit/compare.go:71-88 | The loop pairs two buckets position by position. |
| AuditCompare.CompareAuditRuns | internal/adaptaudit/compare.go:30-90 | Fails exactly for a missing ID, different modes or scopes apart; otherwise the changes are those of the retained findings and conserve them. |
| Budget.RepairReachesGoal | internal/domain/adaptation_contract.go:369-475 | A chapter of at most 15 scenes is dense after the repair exactly when it was dense and not the first of its number, or it is the first, only 6-scene dense chapters share its number, and its 14 or 15 scenes need more than 4000 runes and each of its bounds; a chapter with a number of its own never is. |
| Budget.RepairKeepsStory | internal/domain/adaptation_contract.go:103-113 | The repair changes nothing but budgets, lowers no bound, leaves every touched chapter a legal window, and makes the totals the sums over the chapters. |
| Budget.RepairOnce | internal/domain/adaptation_contract.go:410-468 | With at most 15 scenes each, a second repair finds nothing exactly when no chapter is in one of those cases. |
| Budget.SharedNumberMakesDense | internal/domain/adaptation_contract.go:421-462 | With shared numbers the repair can make a chapter dense that was not. |
| Budget.ValidateDensity | internal/domain/adaptation_contract.go:369-404 | The loop lists exactly the dense chapters, ordered by number. |
| Budget.LivePlan.Repair | internal/domain/adaptation_contract.go:410-468 | Repairs the plan in place as specified, reports one number per issue and drops the audit marker only when something was repaired. |
| Budget.LivePlan.RepairChapter | internal/domain/adaptation_contract.go:431-458 | Raises the three bounds to the floors, restores their order and copies them into the nested budget. |
| Jsonc.StripComments | internal/bootstrap/configfile.go:323-370 | The byte loop computes the specified text. |
| Jsonc.ResultIsClean | internal/bootstrap/configfile.go:323-370 | The result has no comment outside string literals. |
| Jsonc.UnchangedIffClean | internal/bootstrap/configfile.go:323-370 | A text is left as it is exactly when it has no comment. |
| Jsonc.FixedPoint | internal/bootstrap/configfile.go:323-370 | Stripping twice is stripping once. |
| Jsonc.LinesKept | internal/bootstrap/configfile.go:323-370 | The number of newlines is preserved. |
| Jsonc.LiteralsKept | internal/bootstrap/configfile.go:323-370 | Every string literal survives byte for byte, including its escapes, and no new one appears. |
| ConfigLayers.MergeAssociative | internal/bootstrap/configfile.go:151-309 | The grouping of three layers does not matter, exactly when the last does not set an empty list of daily times over a first one that has any. |
| ConfigLayers.EmptyTimesDecide | internal/bootstrap/configfile.go:152-154 | With an explicitly empty list on top, the grouping decides whether the daily times survive. |
| ConfigLayers.MergeIdempotent | internal/bootstrap/configfile.go:151-309 | Merging the same overlay again changes nothing. |
| ConfigLayers.ProviderLaws | internal/bootstrap/configfile.go:217-273 | Provider entries merge associatively and idempotently, through their nested effort tables. |
| ConfigLayers.RoleLaws | internal/bootstrap/configfile.go:275-298 | Role entries merge associatively and idempotently. |
| ConfigMerge.MergeProviders | internal/bootstrap/configfile.go:217-273 | The loop overwrites the base table in place and computes the merged table. |
| ConfigMerge.MergeLiveEfforts | internal/bootstrap/configfile.go:259-266 | Efforts go into the base table, or into a new one when the base has none. |
| ConfigMerge.MergeConfig | internal/bootstrap/configfile.go:151-309 | Computes the merge; the tables of the overlay are neither changed nor shared with the result. |

## Left out

Assumptions shared by several modules:

- JSON encoding, digests and signatures: `adaptationJSONSignature` and content signatures are equality of the encoded fields. The title of the embedded outline entry is hidden by the chapter's own title in JSON, and the model treats it so. A nil and an empty list are not distinguished except where a merge does (daily times, tables).
- Clocks, time stamps, random run IDs, logging, token estimates, mutexes, goroutines and channels. A request is sequential and a stream is a finite sequence; cancellation and back-off are choices of the environment.
- Lower-casing and blank trimming follow Go on the code points the code can observe; no other Unicode folding is modelled.

Writer history:

- The foreign context engine that runs before the strategy, the projection wrapper around it and overflow recovery (`internal/agents/writer_context_manager.go:31-89`); an entry that is not a plain message is carried through unchanged.
- Text extraction from a message concatenates its text blocks; decoding of the `source` argument of a call enters as data.
- WriterRecovery.DecisionInvisible: asks that the error classes are legible (no stored class on an uncleared error, no leading blank in a tool name), because `WriterLimits.BlankNameMerges` shows that a blank name changes the class.
- WriterProtocol.ReceiptSurvives: gives the case a caller can see before the pass; `WriterReceipts.ReceiptSurvivesIff` is exact and speaks of the output of the pass.

Segments and the audit:

- Findings of arc and free mode (`internal/adaptaudit/audit.go:300-403`): they enter the audit as given blocking findings; report assembly, statuses and suggested actions are not modelled.
- Auditor.Auditor.Audit: states the verdict and the finding codes, not the wording, the chapters named in a finding or the number of findings per code.
- Segments.CheckSegments: fixes the discontinuity code only where the two neighbouring states are clean; for other states the comparison depends on the iteration order of a Go map.

Adaptation revisions:

- The rule validator and the validator of relationships and settings (`internal/domain/adaptation_revision_policy.go:1273-1379`): the verdict takes them as given predicates, the second one over the structure of the plan.
- Decoding of candidates, stages, approvals, batch plans, prose queues, the preview validator and the wording of errors.
- RevisionTargets.CheckSource: collects segments with a stable sort; the code's sort is unstable, which matters only for segments of equal chapter and sequence.
- RevisionEvents.CheckEvents: relies on chapter numbers 1..n, which the preceding check has established.

Retry, failover and routes:

- The classification of errors by provider type and message, the comparison of model names and temporary rate limits are arbitrary functions; secrets, clients and the failover report are not modelled.
- A missing model or primary (`ErrNoModel`), which the constructor function rules out.
- The plain call of the failover model (`internal/bootstrap/models.go:636-649`), one retry without a stream.
- FallbackProtocol.AttemptsBounded: counts attempts of the wrapped model and asks that the controller only returns offered providers; a failover model makes at most two inner attempts for each.
- ModelSets.Session: asks for trimmed names and no entry that names only one of provider and model, as validation does for the entries (`internal/bootstrap/config.go:630-638`).
- ModelSets: thinking levels, `ApplyConfig` and `RegisterProvider`; a client is identified by its provider and model, and whether it can be created is an arbitrary predicate.

Smaller parts:

- AuditDiff: the computed fingerprint, the order key and the chapter named by an artifact or segment ID are arbitrary functions; warnings are represented by the number of excluded findings.
- Budget: a nested word budget is a value, so two chapters that share one budget object are not modelled.
- ConfigMerge.MergeConfig: asks that the tables of base and overlay are different objects and that no two base providers share an effort table, which holds for layers decoded from files of their own (`internal/bootstrap/configfile.go:77-94`) and for their merges (the last clause of its contract); values of extra request parameters are strings.
- Loading of configuration files, the byte order mark and saving.
