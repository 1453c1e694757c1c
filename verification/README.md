# Asset discovery: a verified model of the run scheduler and its state

The repository is a resumable scheduler for discovery runs. A run starts from seeds (companies and
domains), sends them through waves of collectors, enrichers and expanders, schedules what those
discover for later waves, and ends in filters and exporters. Between waves it can pause for a human
to review a discovered root, possibly for days, and be resumed by another process.

This project models the parts of it whose promises hold over whole runs, and proves those promises.
`dafny verify dfyconfig.toml` checks everything.

## The five cores

1. **Seed frontier and wave engine.** `Text`, `Seeds` and `Frontiers` define seeds, their keys and
   the frontier operations as functions on values, and prove the frontier invariant of each.
   `Contexts` is the mutable `PipelineContext`, each method proved equal to its function. `Waves` is
   the phase machine of `Engine.Resume`: what nodes do, whether they fail, what the checkpoint
   callback answers, and what a user accepts while a run is stopped are arbitrary inputs.
   `SeedMerges`, `Submissions` and `SubmittedSeeds` say what merging and submitting seeds leaves in
   each field. `Scheduling` has the main results (exactly-once scheduling, the wave bound,
   termination), `Depth` which waves schedule and occur, `Pausing` shows that checkpoints are
   invisible, `Gate` that the evidence gate is a function of the set of promotions, and `Engines` is
   the loop itself on a live context.
2. **Canonical asset graph.** `AssetMerge` and `MergeOrder` cover the merge of sightings, `Graphs`
   and `GraphIndex` the upserts and their three indexes, `GraphCheck` the merge filter's own
   validation of the result, `AssetContexts` the mutable state. `AssetFields`, `GraphRecords` and
   `GraphSightings` say what is stored in each field. `GraphOrder` shows that the asset of a key is
   the merge of its sightings over any number of calls, in any order.
3. **Execution lease.** `Lease` holds the in-memory store and the protocol of any number of workers,
   with one clock that never runs backwards.
4. **Pivot review gate.** `Review` is the broker, hydration from judge outcomes, the checkpoint and
   the decision; `ReviewSafety` its guarantees over every history; `ReviewSubjects` which seed a pivot
   and its decision are about; `ReviewHarm` shows that the conditions of those guarantees are exact;
   `ReviewServices` is the service at work, with a stored record, a live context and a live broker;
   `ReviewGap` is a history that escapes the gate.
5. **Two bounded algorithms.** `BreadthFirst` and `Crawl` are the crawler's search, `CrawlCaptures`
   what it records, `Packing` the split of judge requests under a prompt limit, `PackingCost` what
   oversized candidates cost it.

`Options`, `Orders` and `Folds` are shared: optional values, strict orders with a sort, and left folds
with their induction principle.

Concurrent collectors take the context's lock once per operation, so a stage is modelled as an
arbitrary finite sequence of operations. Times are integers, confidences reals.

## What the proofs found

Each of these is stated as a lemma about the code as it stands.

- Exactly-once scheduling holds of an engine if and only if it has a reconsiderer
  (`Scheduling.SettlesIffReconsidered`). Without one, a pivot accepted while paused after
  reconsideration opens an ordinary wave whose own discoveries are never collected. That is a history
  of the engine's interface, where a callback may pause at any checkpoint; the run service, which
  pauses only for a pending pivot, has nothing to open one at that checkpoint unless an earlier
  checkpoint callback failed.
- A checkpoint callback that fails after hydration found something to review is saved with the
  broker's pivots only. The run can then complete unreviewed (`ReviewGap.FailedCheckpointSkipsReview`).
  It can exactly when the stage left one pivot pending, which brings the run back, and another that
  only hydration would open, and no later checkpoint hydrates again: the one that failed is the extra
  wave's, or reconsideration's with no seed left for an extra wave (`ReviewHarm.BrokenCheckpointIff`,
  with `ReviewSafety.OpensNoneIff` on what hydration would open). The histories `ReviewSafety` covers
  are exactly those that never come within reach of that (`ReviewHarm.OrderlyIffNeverHarmful`).
- A comma inside a domain makes a same-key merge change the key (`Seeds.CommaChangesKey`); the exact
  condition is `Seeds.MergeKeepsKeyIff`.
- A bar in the source or kind of evidence lets a merge move a stored item to another key
  (`SeedMerges.BarMovesEvidence`); the exact condition is `SeedMerges.RaiseKeepsKeyIff`.
- Domain ownership depends on the order of sightings exactly when some sighting is blank, some is
  not, and none is owned (`MergeOrder.DomainOwnershipOrderFreeIff`).
- Greedy packing is optimal among splits that never reach across an oversized candidate. Among all
  splits it is optimal exactly when some shortest one closes a request at each oversized candidate
  (`PackingCost.MinimalIffSomeSplit`); otherwise each costs at most one request.
- An asset first created from an observation is re-ingested by the next operation: its merged fields
  stay, its provenance becomes a single item (`GraphOrder.ReconciledAt`,
  `GraphOrder.FirstSightingOfItself`).
- What a pause forgets is exactly the candidates below the gate (`Frontiers.RestoreForgetsCandidates`,
  `Pausing.WeakEvidenceIsForgotten`).

## Model

| member | source | states |
|---|---|---|
| `Text.NormFixes` | internal/models/seed_helpers.go:208-228 | trimming and lower-casing is one idempotent normaliser, and absorbs an earlier trim |
| `Text.TrimIsSlice` | internal/models/seed_helpers.go:33-37 | trimming cuts white space off both ends of a text and nothing else |
| `Text.UniqueNormalizedStrings` | internal/models/seed_helpers.go:208-228 | the loop returns exactly the non-blank normal forms of its input, strictly ascending |
| `Text.NormalListIsFixed` | internal/models/seed_helpers.go:208-228 | normalising a normal list changes nothing |
| `Text.UniqueNormalizedUnion` | internal/models/seed_helpers.go:75-84 | re-normalising the concatenation of two normal lists gives the sorted union of the two |
| `Text.JoinInjective` | internal/models/seed_helpers.go:22-24 | on comma-free, non-empty lists the comma join behind seedKey loses nothing |
| `Text.JoinShorter` | internal/models/seed_helpers.go:20-24 | joining a strict sub-list of an ascending list gives a strictly shorter text |
| `Seeds.MergeSeedEvidence` | internal/models/seed_helpers.go:138-173 | the indexed loop is the left-to-right merge, and keeps a reasoned verdict exactly when one went in |
| `Seeds.MergeKeepsReasoned` | internal/models/seed_helpers.go:138-190 | merging evidence neither loses nor invents a reasoned verdict; a blank reasoned item is dropped |
| `Seeds.NormalizeIsStorable` | internal/models/seed_helpers.go:33-44 | normalizeSeed yields trimmed names and sorted distinct normal domains, and keeps the reasoned verdict |
| `Seeds.KeyOfNormal` | internal/models/seed_helpers.go:8-31 | the key of a normalised seed is its joined domains, else its lower-cased company name, else its id |
| `Seeds.MergeKeepsKeyIff` | internal/models/seed_helpers.go:53-85 | merging two normalised seeds of one key keeps the key if and only if one names no domain or both name the same domains |
| `Seeds.MergeKeepsKey` | internal/models/seed_helpers.go:53-85 | with comma-free domains a merge always keeps the key, across company-versus-domain and id collisions |
| `Seeds.CommaChangesKey` | internal/models/seed_helpers.go:22-24 | a domain containing a comma makes a same-key merge change the key |
| `SeedMerges.MergeGathers` | internal/models/seed_helpers.go:138-173 | merged evidence shows under every key the highest confidence and the reasoned disjunction of what was there and what came in, no key is lost or made up, and normal items stay normal; when the items of a key agree on naming a value |
| `SeedMerges.RaiseKeepsKeyIff` | internal/models/seed_helpers.go:157-167 | merging an item into a stored one of its key keeps that key if and only if the stored one names a value or the new one does not |
| `SeedMerges.BarMovesEvidence` | internal/models/seed_helpers.go:163-165 | a bar in a source lets a merge move a stored item to another key |
| `SeedMerges.BarFreeAgree` | internal/models/seed_helpers.go:175-181 | with no bar in sources and kinds the items of one key agree |
| `SeedMerges.NormalizedStores` | internal/models/seed_helpers.go:33-51 | a seed stored for the first time has the trimmed names, the distinct normal domains, the confidence and the gathered evidence of the submitted one |
| `SeedMerges.MergedCombines` | internal/models/seed_helpers.go:53-85 | a merge keeps the stored id and company name unless they are blank, takes the larger confidence and the union of the domains, and gathers all evidence, with a mark when company names differ |
| `Frontiers.DedupeKeys` | internal/models/seed_frontier.go:22-43 | deduplicating the submitted seeds leaves their distinct keys, once each, in first-seen order |
| `Frontiers.DedupeFiles` | internal/models/seed_frontier.go:22-43 | every merged seed is still filed under the key that would be computed for it now |
| `SubmittedSeeds.InitializedCarries` | internal/models/seed_frontier.go:5-44 | the first frontier has one seed per submitted key, with the highest confidence, all domains, the first company name and id, and all evidence of the seeds submitted under it |
| `Frontiers.InitializedInv` | internal/models/seed_frontier.go:5-44 | initialisation establishes the frontier invariant with the first-seen keys active and nothing pending |
| `Frontiers.MergeAcrossKeepsKeys` | internal/models/seed_helpers.go:87-107 | merging into a known key changes no key in any slice and touches no candidate: the candidate branch is dead (what it does to the seeds is `Submissions.MergedAcross`) |
| `Submissions.MergedAcross` | internal/models/seed_helpers.go:87-136 | every seed of the key in the seeds, active and pending slices combines with the submitted seed and evidence; every other seed and field stays as it is |
| `Submissions.EnqueueOfKnown` | internal/models/seed_frontier.go:69-83 | enqueueing a known key schedules nothing and combines every stored seed of the key with the submitted one |
| `Submissions.PromoteOfKnown` | internal/models/seed_frontier.go:99-115 | so does promoting a known key, its own evidence included, and the handler is not asked |
| `Submissions.ClosedTakesNothing` | internal/models/seed_frontier.go:73-76 | with no extra wave and the depth used up, neither changes anything |
| `Submissions.EnqueueOfNew` | internal/models/seed_frontier.go:85-94 | enqueueing a new key stores the seed as submitted, last, and schedules it unless the extra wave runs |
| `Submissions.PromoteOfNew` | internal/models/seed_frontier.go:117-187 | the record of a new key takes the seed and the evidence in, and decides with the answer whether it is dropped, waits, or is stored under its highest confidence with all its evidence, and scheduled |
| `Submissions.HandlerIsAsked` | internal/models/seed_frontier.go:103-170 | the handler is asked if and only if the frontier takes seeds, the key is new and the record is reasoned, has 0.9 of confidence or two signals; it is told the key, names, domains and confidence of the record |
| `Frontiers.EnqueuedInv` | internal/models/seed_frontier.go:69-94 | EnqueueSeed keeps the invariant and does nothing, registers one new key, or registers and schedules it |
| `Frontiers.PromotedInv` | internal/models/seed_frontier.go:99-188 | PromoteSeedCandidate keeps the invariant for every handler answer; a key reported as scheduled was unknown and is pending, last |
| `Frontiers.JudgedOutcome` | internal/models/seed_frontier.go:154-187 | which gate and which answer lead to which outcome: below the gate a candidate waits, or is registered unscheduled in the extra wave, and the handler has no say; above it, a refusal drops it and anything else registers it, scheduled unless the extra wave runs |
| `Frontiers.ConsideredThenConcluded` | internal/models/seed_frontier.go:99-188 | a promotion is its part up to the handler followed by its part from the answer on |
| `Frontiers.MaterializedInv` | internal/models/seed_helpers.go:109-127 | materialising a candidate registers its key once and keeps active and pending keys distinct |
| `Frontiers.ReservedInv` | internal/models/seed_frontier.go:56-66 | reserving the extra wave keeps the invariant and never coexists with a wave in progress |
| `Frontiers.AdvancedInv` | internal/models/seed_frontier.go:198-229 | advancing moves all pending seeds, in order, into the active frontier, and raises depth plus extra wave by exactly one when it reports a move |
| `Frontiers.RestoreForgetsCandidates` | internal/models/pipeline_context_hooks.go:87-120 | restoring a snapshot is the identity except that candidates are forgotten; it is the identity exactly when there are none |
| `Contexts.PipelineContext.InitializeSeedFrontier` | internal/models/seed_frontier.go:5-44 | the two loops over map and order compute the value specification from the submitted seeds |
| `Contexts.PipelineContext.CollectionSeeds` | internal/models/seed_frontier.go:47-52 | returns the active frontier |
| `Contexts.PipelineContext.ReserveExtraCollectionWave` | internal/models/seed_frontier.go:56-66 | new state and answer are those of the specification; only the reservation flag changes |
| `Contexts.PipelineContext.EnqueueSeed` | internal/models/seed_frontier.go:69-94 | new state and answer are those of the specification, in all three scheduling modes; for what they are, see `Submissions` |
| `Contexts.PipelineContext.PromoteSeedCandidate` | internal/models/seed_frontier.go:99-188 | new state and result are those of the specification, for every handler answer including an unknown one; for what they are, see `Submissions` |
| `Contexts.PipelineContext.ConsiderCandidate` | internal/models/seed_frontier.go:103-170 | up to the handler: merges, records evidence and applies the gate; yields the request when the handler is to be asked |
| `Contexts.PipelineContext.ConcludePromotion` | internal/models/seed_frontier.go:171-187 | from the answer on: drops the candidate or registers it |
| `Contexts.PipelineContext.EnqueueSeedCandidate` | internal/models/seed_frontier.go:193-195 | the scheduled part of a promotion |
| `Contexts.PipelineContext.AdvanceSeedFrontier` | internal/models/seed_frontier.go:198-229 | new state and answer are those of the specification |
| `Contexts.PipelineContext.SnapshotSchedulerState` | internal/models/pipeline_context_hooks.go:87-100 | captures the scheduler fields |
| `Contexts.PipelineContext.RestoreSchedulerState` | internal/models/pipeline_context_hooks.go:104-120 | overwrites the scheduler fields, recomputes the known keys from the seeds and clears the candidates |
| `Contexts.PipelineContext.SchedulingModeLocked` | internal/models/seed_frontier.go:239-250 | register-only in the extra wave, next wave when reserved or below the depth budget, else reject |
| `Contexts.PipelineContext.MergeSeedAcrossSlicesLocked` | internal/models/seed_helpers.go:87-107 | merges into every slice entry and candidate of the key |
| `Contexts.PipelineContext.MaterializeSeedCandidateLocked` | internal/models/seed_helpers.go:109-127 | turns a candidate into a known, possibly pending, seed |
| `Gate.SummaryDecides` | internal/models/seed_frontier.go:252-266 | the stored record passes the gate exactly when the history it summarises does |
| `Gate.AccumulateSummarises` | internal/models/seed_frontier.go:117-152 | one more promotion keeps the stored record a summary of its key's history |
| `Gate.RunTracks` | internal/models/seed_frontier.go:99-188 | after any interleaving of promotions a key is known if its history passes the gate, and otherwise waits with a record that summarises its history |
| `Gate.GateRefinesHistory` | internal/models/seed_frontier.go:99-188 | a fresh key is registered by a sequence of promotions if and only if the set of its evidence has a reasoned item, confidence of 0.9, or two distinct signals; no passing candidate is left waiting |
| `Gate.OrderDecidesNothing` | internal/models/seed_frontier.go:99-188 | two sequences with the same promotions, in any order and number, register the same keys and leave the same candidates |
| `Waves.ApplyAllEffect` | internal/models/seed_frontier.go:69-188 | a stage of any finite sequence of operations keeps the invariant, appends exactly its logged keys to pending, and logs nothing unless a next wave is open |
| `Waves.PassGood` | internal/dag/engine.go:129-207 | every pass of the loop, whatever nodes and callback do, keeps the run invariant over frontier, phase, wave number and history |
| `Waves.ReloadGood` | internal/models/pipeline_context_hooks.go:102-120 | a checkpoint round trip keeps the run invariant |
| `Waves.AcceptGood` | internal/runservice/service_pivots.go:31-67 | a user accepting a pivot while the run is stopped keeps the run invariant |
| `Waves.EveryRunGood` | internal/dag/engine.go:109-208 | the invariant holds in every run with any turns, pauses, errors, reloads and accepted pivots |
| `Scheduling.OneFrontier` | internal/dag/engine.go:129-192 | no key is placed in two frontiers |
| `Scheduling.ChainIsExactlyOnce` | internal/dag/engine.go:129-192 | a chained, repetition-free history with nothing left over schedules exactly once |
| `Scheduling.ExactlyOnceScheduling` | internal/dag/engine.go:129-192 | with a reconsiderer, when filtering starts each scheduled key has been placed in exactly one frontier, the next one; initial keys are in wave 0 only; pending is empty |
| `Scheduling.LosingRun` | internal/dag/engine.go:150-172 | without a reconsiderer, a concrete paused run with an accepted pivot reaches filtering with a scheduled seed still pending |
| `Scheduling.SettlesIffReconsidered` | internal/dag/engine.go:150-172 | exactly-once scheduling holds of all runs of an engine if and only if it has a reconsiderer |
| `Scheduling.WaveBound` | internal/dag/engine.go:99-148 | throughout every run the wave number is the depth plus one for the extra wave; at most 3, or 4 when there is a reconsiderer |
| `Scheduling.PassGoes` | internal/dag/engine.go:129-207 | where a pass goes: a stage that ran and failed keeps its phase, any other goes on, back to a wave while seeds are pending; and how each checkpoint answer ends it |
| `Scheduling.PassWorks` | internal/dag/engine.go:129-207 | a pass leaves the frontier all the operations of its nodes lead to, failed or not, after reserving the extra wave in reconsideration |
| `Depth.CollectionWavesSchedule` | internal/dag/engine.go:99-123 | in a collection wave of any run a new seed is registered and scheduled if and only if the wave number is below 3 |
| `Depth.ExtraWaveRegisters` | internal/models/seed_frontier.go:239-250 | in the extra wave of any run a new seed is registered and not scheduled |
| `Depth.WavesThatOccur` | internal/dag/engine.go:99-148 | the wave numbers that occur in some run are exactly 0 to 3, and 4 with a reconsiderer |
| `Scheduling.PassDecreases` | internal/dag/engine.go:129-207 | every pass that goes on lowers a measure of advances left and phase rank |
| `Scheduling.ResumeTerminates` | internal/dag/engine.go:109-208 | Resume stops within fourteen passes for every behaviour of nodes and callback |
| `Pausing.StageLeavesNone` | internal/models/seed_frontier.go:150-188 | a stage of reasoned promotions leaves no candidate |
| `Pausing.SplitPassSame` | internal/dag/engine.go:137-142 | a pass that pauses, is saved, reloaded and resumed ends where the straight pass does |
| `Pausing.PausingIsInvisible` | internal/models/pipeline_context_hooks.go:85-120 | a run of deterministic, reasoned nodes split at any checkpoints goes through the same states as the unsplit run |
| `Pausing.WeakEvidenceIsForgotten` | internal/models/pipeline_context_hooks.go:115-119 | any promotion left below the gate is lost by a reload: the restored frontier differs |
| `Engines.Engine.Resume` | internal/dag/engine.go:109-208 | leaves context and progress in the state that many passes of the phase machine lead to, within fourteen passes, and keeps the run invariant |
| `Engines.Engine.TakeTurn` | internal/dag/engine.go:130-206 | one iteration of the loop does on the live objects what one pass does on values |
| `Engines.Start` | internal/dag/engine.go:120-127 | initialises a fresh run with the depth budget and leaves a resumed one alone; which waves that allows is `Depth.WavesThatOccur` |
| `Engines.PassWave` | internal/dag/engine.go:131-142 | a wave phase: nodes only on a non-empty frontier, an error keeps the phase, then the checkpoint |
| `Engines.PassAdvance` | internal/dag/engine.go:143-149 | an advance phase: next wave when the frontier moved, else the next stage |
| `Engines.PassReconsideration` | internal/dag/engine.go:150-165 | reserves the extra wave only when there is a reconsiderer, then the checkpoint |
| `Engines.PassFinal` | internal/dag/engine.go:185-200 | filters and exporters: an error keeps the phase |
| `Engines.RunWave` | internal/dag/engine.go:217-266 | the operations of a wave reach the context one at a time |
| `Lease.MemoryProjectionStore.UpsertRun` | internal/runservice/projection_memory.go:35-44 | stores the record, keeping a stored lease when the incoming lease id is blank |
| `Lease.MemoryProjectionStore.ClaimRunExecution` | internal/runservice/projection_memory.go:111-136 | succeeds if and only if the run exists and its lease id is blank or the claimant's, or its end is absent or not after now; then the lease is the claimant's until now plus TTL and nothing else changes, otherwise nothing does |
| `Lease.MemoryProjectionStore.HeartbeatRunExecution` | internal/runservice/projection_memory.go:138-162 | renews if and only if the run exists under the same lease id, expired or not; otherwise nothing changes |
| `Lease.MemoryProjectionStore.ReleaseRunExecution` | internal/runservice/projection_memory.go:164-186 | succeeds if and only if nobody else holds the run, and leaves it free to everyone |
| `Lease.ActiveRefuses` | internal/runservice/projection_memory.go:125-127 | while a worker's last renewal is unexpired, every other claim is refused, even with a stale clock reading |
| `Lease.EveryRunKeepsLease` | internal/runservice/projection_memory.go:111-186 | in every interleaving, whoever still has time left by its own last renewal is the stored holder |
| `Lease.MutualExclusion` | internal/runservice/projection_memory.go:111-186 | two workers never both have an unexpired lease on a run, and the stored lease id is the one that does |
| `Lease.LiveHolderStays` | internal/runservice/worker.go:77-149 | a holder that renews in time is never displaced: other claims and heartbeats and releases are refused, blank upserts keep its lease |
| `Lease.ScheduleStaysAlive` | internal/runservice/worker.go:112-135 | a ticker interval shorter than the TTL keeps every renewal in time |
| `Lease.AcceptedWorkerKeepsItsRun` | internal/runservice/worker.go:34-149 | any configuration NewWorker accepts keeps a successfully claimed run until it is released |
| `Lease.UpsertKeepsLeaseIff` | internal/runservice/worker.go:137-149 | over a held run an upsert keeps the lease if and only if its own lease id is blank or its lease is the stored one |
| `Lease.UpsertStores` | internal/runservice/worker.go:137-149 | an upsert stores the record under its id, with the stored lease where it brings none itself, and touches no other run |
| `Lease.TakenOverIff` | internal/runservice/projection_memory.go:111-136 | in every reachable system a claim at the clock by another worker makes it the stored holder until a TTL later if and only if the stored lease has ended, and nobody still has time left then |
| `Lease.CrashedWorkerIsReplaced` | internal/runservice/worker.go:77-155 | when a holder falls silent its run is refused to others until the end of its last lease, and claimed by whoever asks from then on |
| `Lease.NewWorkerIff` | internal/runservice/worker.go:34-53 | a configuration is accepted if and only if its interval, 60 seconds unless given, is shorter than its TTL, 900 unless given |
| `Review.PivotBroker.constructor` | internal/runservice/service_pivots.go:168-178 | the broker starts from the saved pivots |
| `Review.PivotBroker.HandleCandidatePromotion` | internal/runservice/service_pivots.go:180-216 | meets the pivot of the promotion's root or opens one, and answers by that pivot's status |
| `Review.HydratePivotsFromJudges` | internal/runservice/service_pivots.go:257-305 | the loop over judge outcomes computes the hydrated pivots |
| `ReviewSafety.HydratedPivots` | internal/runservice/service_pivots.go:257-305 | hydration adds a pivot for exactly the discarded roots and re-decides none |
| `ReviewSafety.HydratedNew` | internal/runservice/service_pivots.go:248-289 | the first discard of a root alone decides whether hydration opens its pivot and with which status |
| `ReviewSafety.OpensNoneIff` | internal/runservice/service_pivots.go:248-289 | hydration has nothing new to put to review if and only if no root without a pivot was first discarded below 0.80 in a manual run |
| `ReviewSafety.ClearIff` | internal/runservice/service_process_run.go:141-173 | the checkpoint lets the run go on exactly when no pivot is pending and hydration opens none |
| `ReviewSafety.DispatchableStep` | internal/runservice/service_pivots.go:69-105 | at most one dispatch or process exists, and none while a saved pivot is pending |
| `ReviewSafety.StartedReviewed` | internal/runservice/service_process_run.go:80-100 | a dispatched run is loaded into a process that, behind its last checkpoint, has nothing to review |
| `ReviewSafety.DecidedReviewed` | internal/runservice/service_pivots.go:20-108 | a decision keeps the review invariant, and dispatches the run only when nothing is left pending |
| `ReviewSafety.FailureIff` | internal/dag/engine.go:129-207 | a pass fails exactly when its nodes do or its checkpoint callback breaks, and leaves the run unguarded exactly at the last checkpoint or behind it |
| `ReviewSafety.PassedReviewed` | internal/runservice/service_process_run.go:133-238 | an orderly pass, with everything saved of it, keeps the review invariant or abandons the run for good |
| `ReviewSafety.StepReviewed` | internal/runservice/service_process_run.go:80-238 | every orderly start, pass, failure and decision keeps the run secure |
| `ReviewSafety.ReviewSafety` | internal/runservice/service_process_run.go:133-238 | a run started by creation or by the decision that clears its last pending pivot is never in filtering or later, nor saved as completed, with a pivot to review, over every orderly history |
| `ReviewSafety.AutonomousNeverPauses` | internal/runservice/service_process_run.go:149-173 | an autonomous run never waits for review, even when callbacks fail |
| `ReviewSafety.DecisionIsFinal` | internal/runservice/service_pivots.go:42-76 | a pivot accepted or rejected by a user keeps that status through every later promotion, hydration, failure, save, load and decision |
| `ReviewSafety.ManualRunsHaveNoAutoAccepts` | internal/runservice/service_pivots.go:207-215 | in manual mode only a user accepts a pivot |
| `ReviewSafety.ManualRegistersIffAccepted` | internal/runservice/service_pivots.go:180-216 | in manual mode a reasoned promotion registers its seed if and only if the frontier takes seeds, the key is new, and a user accepted the pivot of its root |
| `ReviewSafety.RegistersIffAllowed` | internal/runservice/service_pivots.go:180-216 | in either mode a promotion that reaches the handler registers its key if and only if the pivot of its root is accepted, or there is none and the run is autonomous |
| `ReviewSafety.StatusesAreTrue` | internal/runservice/service_pivots.go:76-83 | over every history a run awaits review only with a pivot pending, and a pending pivot shows in the status unless the run has failed or completed |
| `ReviewSubjects.RootChoice` | internal/runservice/service_pivots.go:229-239 | a promotion is filed under the registrable domain of its key, else of the first of its domains that has one, else under its id |
| `ReviewSubjects.HydratedSubjects` | internal/runservice/service_pivots.go:257-305 | hydration leaves the seeds and confidences of pivots alone, and opens pivots about their roots with the confidence of the first discard |
| `ReviewSubjects.HydratedNotes` | internal/runservice/service_pivots.go:293-301 | the reason shown for a pivot is that of the last verdict on its root |
| `ReviewSubjects.RootKey` | internal/runservice/service_pivots.go:275-286 | the key of a discarded root, and of the seed accepting it enqueues, is the root in lower case |
| `ReviewSubjects.PivotsAreFaithful` | internal/runservice/service_pivots.go:180-216 | over every history each pivot, saved or in a process, carries the key, names, domains and confidence of the last promotion of its root that reached the handler, as it was submitted; a pivot no promotion met is about its root |
| `ReviewSubjects.DecisionEnqueues` | internal/runservice/service_pivots.go:31-67 | after any history, accepting a pending pivot while the frontier takes seeds makes exactly that key known, with those names and domains, and pending last while a next wave is open; a known key takes the seed in; rejecting changes no key |
| `ReviewSubjects.ServiceSchedulesOnce` | internal/dag/engine.go:129-192 | in every history of the service with a reconsiderer, a process that reaches filtering has placed every scheduled key in exactly one frontier |
| `ReviewSafety.DecisionBinds` | internal/runservice/service_pivots.go:180-216 | over whole runs: however a run went on after a decision, a promotion of that root that reaches the handler registers its seed after an acceptance and nothing after a rejection |
| `ReviewSafety.ReasonedIsConsulted` | internal/models/seed_frontier.go:99-170 | a reasoned promotion reaches the handler if and only if the frontier takes seeds and the key is new |
| `ReviewHarm.UndecidedIsHarmful` | internal/runservice/service_pivots.go:69-105 | a stopped run behind its last checkpoint, with a pivot pending and another only hydration would open, can be decided and resumed into filtering unreviewed |
| `ReviewHarm.HarmfulIffDisorderly` | internal/runservice/service_process_run.go:133-238 | from a reviewed state, one event lets the run come to filtering or completion with a pivot to review if and only if it is not orderly |
| `ReviewHarm.BrokenCheckpointIff` | internal/runservice/service_process_run.go:133-192 | a breaking checkpoint callback does harm if and only if the stage left one pivot pending and another for hydration to open, at the extra wave's checkpoint or at reconsideration's with no seed left |
| `ReviewHarm.OrderlyIffNeverHarmful` | internal/runservice/service_process_run.go:80-238 | the orderly histories of a run are exactly those that never come within reach of harm |
| `ReviewHarm.EnqueueingIsOrderly` | internal/dag/engine.go:185-200 | filters and exporters that neither promote nor judge are orderly |
| `ReviewHarm.AutonomousIsOrderly` | internal/runservice/service_process_run.go:149-173 | in an autonomous run every event is orderly |
| `ReviewServices.RunProcessor.Load` | internal/runservice/service_process_run.go:80-100 | from the stored record alone, which lacks known keys, candidates and history, the live context, progress and broker are those of the run that was saved, restored and resumed |
| `ReviewServices.RunProcessor.PromoteCandidate` | internal/models/seed_frontier.go:163-187 | a promotion on the live context that asks the live broker between its halves is the promotion with the broker's answer |
| `ReviewServices.RunProcessor.RunStage` | internal/dag/engine.go:217-266 | any node operations, one by one on the live context with the live broker as handler, leave both as the stage specification says |
| `ReviewServices.RunProcessor.TakeTurn` | internal/dag/engine.go:129-207 | one pass over the live objects, with the checkpoint's answer computed from what the stage left, is one pass of the phase machine |
| `ReviewServices.RunService.constructor` | internal/runservice/service_create_run.go:15-95 | creation stores the initial snapshot and dispatches the run once |
| `ReviewServices.RunService.LoadSnapshot` | internal/runservice/service_process_run.go:80-131 | loading a dispatched run into live objects is the service's start step |
| `ReviewServices.RunService.ProcessTurn` | internal/runservice/service_process_run.go:133-267 | a pass on the live objects and what is stored of it is the service's pass step; the stored record always represents the saved run |
| `ReviewServices.RunService.DecidePivot` | internal/runservice/service_pivots.go:20-108 | a decision made on the stored record, in a context of its own, is the service's decision step; refused unless the pivot is pending |
| `ReviewGap.ResumedRunCompletes` | internal/runservice/service_process_run.go:194-238 | a run resumed behind its last checkpoint completes with whatever hydration then opens |
| `ReviewGap.FailedCheckpointSkipsReview` | internal/runservice/service_process_run.go:176-192 | a concrete manual run whose checkpoint callback fails is saved as completed with a pivot pending review |
| `BreadthFirst.Reached` | internal/collect/crawler_collector.go:308-379 | when the head of the queue stands at depth n, or the queue is empty, everything within n links has been queued |
| `BreadthFirst.QueueTarget` | internal/collect/crawler_collector.go:363-373 | queueing an unseen target of the head keeps every depth a shortest distance, and depths non-falling and at most one apart |
| `BreadthFirst.EmptyQueueIsComplete` | internal/collect/crawler_collector.go:308-382 | with the queue empty, every URL within the depth limit has been visited at its distance |
| `Crawl.StartQueue` | internal/collect/crawler_collector.go:291-303 | the queue starts with each distinct non-blank start URL at depth 0 |
| `Crawl.FollowLinks` | internal/collect/crawler_collector.go:349-378 | one page's links: hosts noted, unseen targets queued one level deeper, outbound links captured |
| `Crawl.Visit` | internal/collect/crawler_collector.go:316-378 | a failed fetch or missing page costs nothing, an out-of-scope redirect is captured, other pages are followed |
| `Crawl.CrawlSeed` | internal/collect/crawler_collector.go:282-382 | the crawl ends, fetches at most MaxPages pages, visits each URL once in order of shortest distance, misses nothing in reach if the queue ran dry, and returns exactly the hosts, captured links and errors of those visits |
| `Crawl.FetchedOnceAndLinked` | internal/collect/crawler_collector.go:308-379 | no URL is fetched twice; depth 0 means a start URL; every other was linked with an in-scope root from a page one link nearer |
| `Crawl.CaptureTotal` | internal/collect/crawler_collector.go:510-549 | a capture adds one observation in all, or none when no root is registrable |
| `Crawl.CapturesConserved` | internal/collect/crawler_collector.go:510-549 | per root, observations count the links captured for it; over all roots they sum to the captured links; samples are bounded |
| `CrawlCaptures.ResolvedLink` | internal/collect/crawler_collector.go:349-353 | a link is read with blanks filled in from the page's final address or from what is known of its target |
| `CrawlCaptures.CapturedLinks` | internal/collect/crawler_collector.go:333-378 | a page that left the scope captures its redirect, from the requested URL to the final address; any other page captures exactly its links out of scope; no other visit captures anything |
| `CrawlCaptures.HostsFound` | internal/collect/crawler_collector.go:325-361 | the hosts a visit contributes are exactly the subdomains in scope of its final address and of its accepted links |
| `CrawlCaptures.VisitsAccounted` | internal/collect/crawler_collector.go:316-323 | every visit is a page, a missing page or an error, and all errors are reported |
| `CrawlCaptures.CapturesRecorded` | internal/collect/crawler_collector.go:510-549 | a root has a record exactly when a captured link counts for it, with the number of its links, the first samples up to the cap, and exactly its referrers and relations |
| `CrawlCaptures.SamplesAre` | internal/collect/crawler_collector.go:538-548 | kept samples are captured links, no two the same up to case and blanks, and below the cap every captured link is one of them |
| `Packing.BuildJudgeRequests` | internal/expand/ai_search_collector.go:403-466 | the loop computes the plan of the greedy split of the untruncated prefix |
| `Packing.PlanConserves` | internal/expand/ai_search_collector.go:403-466 | for any size function: requests concatenate to the selected list, each non-empty and within the limit; selected and skipped interleave to the prefix; only a candidate too big alone is skipped |
| `Packing.GreedyAhead` | internal/expand/ai_search_collector.go:436-462 | at every point the greedy split has fewer requests than any other, or as many with a last one no longer |
| `Packing.GreedyIsOptimal` | internal/expand/ai_search_collector.go:403-466 | no order-preserving split that keeps oversized candidates apart makes fewer requests |
| `Packing.GreedyIsShortest` | internal/expand/ai_search_collector.go:403-466 | when every candidate fits alone, nothing is skipped and the plan is the shortest order-preserving split within the limit |
| `Packing.PlanIsExact` | internal/expand/ai_search_collector.go:403-466 | the first candidates up to a positive cap are judged and the roots of the rest reported as truncated; requests carry their roots and stay within a positive limit; only candidates above it alone are skipped; without a limit there is one request |
| `Packing.PlanIsShortest` | internal/expand/ai_search_collector.go:403-466 | when every candidate fits alone, the plan of the judged ones skips none and is the shortest order-preserving split |
| `PackingCost.SelectedAreAlone` | internal/expand/ai_search_collector.go:436-462 | for a monotone size the selected candidates are exactly those that fit alone |
| `PackingCost.OversizedCuts` | internal/expand/ai_search_collector.go:443-457 | an oversized candidate cuts the packing: what comes before and after it is packed as if alone |
| `PackingCost.MinimalIff` | internal/expand/ai_search_collector.go:403-466 | for every monotone size the plan is the shortest for the selected candidates if and only if packing them without the oversized ones takes as many requests |
| `PackingCost.MinimalIffSomeSplit` | internal/expand/ai_search_collector.go:403-466 | equivalently, if and only if some split that closes a request at every oversized candidate is as short as the packing without them |
| `PackingCost.OneOversizedIff` | internal/expand/ai_search_collector.go:443-457 | one oversized candidate costs at most one request, and none exactly when cutting the list there costs none, as at either end and wherever a request is closed anyway |
| `PackingCost.EachCostsAtMostOne` | internal/expand/ai_search_collector.go:443-457 | every oversized candidate costs at most one request |
| `PackingCost.OversizedSplitsNeighbours` | internal/expand/ai_search_collector.go:443-457 | a concrete list under a monotone size where two neighbours that fit in one request are judged apart |
| `AssetMerge.UniqueDomainRecords` | internal/models/asset_clone.go:97-123 | the loop and sort compute the deduplicated, sorted records |
| `AssetMerge.MergeDomainRecords` | internal/models/asset_clone.go:77-95 | the loop computes the deduplicated, sorted union |
| `AssetMerge.MergeAssetProvenance` | internal/models/asset_clone.go:194-229 | the loop and sort compute the merged provenance |
| `MergeOrder.UniqueRecordsKeys` | internal/models/asset_clone.go:97-127 | record keys come out strictly ascending and are exactly the non-blank keys that went in |
| `MergeOrder.MergeRecordsKeys` | internal/models/asset_clone.go:77-127 | merged record keys are strictly ascending and the union of both sides |
| `MergeOrder.MergeProvenanceKeys` | internal/models/asset_clone.go:194-233 | merged provenance is strictly sorted and its keys are the old ones and the new one |
| `MergeOrder.SightingsDate` | internal/models/asset_merge.go:26-28 | the canonical date is the earliest non-zero date of all sightings |
| `MergeOrder.SightingsCatchAll` | internal/models/asset_merge.go:51-56 | catch-all is the disjunction over all sightings |
| `MergeOrder.SightingsRecords` | internal/models/asset_merge.go:51-56 | record keys are the strictly sorted union over all sightings |
| `MergeOrder.SightingsProvenance` | internal/models/asset_merge.go:29-32 | provenance keys are the strictly sorted set of the sightings' own keys |
| `MergeOrder.OwningRank` | internal/models/asset_merge.go:98-111 | the ownership rank never falls, and ends at the highest of the defaulted first and all others |
| `MergeOrder.IPOwnershipIsMaximum` | internal/models/asset_merge.go:98-111 | for an IP the ownership is the maximum of associated, uncertain and owned over all sightings |
| `MergeOrder.OrderIsIrrelevant` | internal/models/asset_merge.go:9-111 | two lists with the same sightings leave the same date, catch-all flag, provenance keys and record keys; for an IP the same ownership |
| `MergeOrder.DomainOwnershipOrderFreeIff` | internal/models/asset_merge.go:98-111 | for a domain the ownership is independent of order if and only if no sighting is blank, one is owned, or all are blank |
| `AssetFields.SplitIsParts` | internal/models/asset_merge.go:220-237 | splitting sources finds exactly the trimmed, lower-cased texts between commas |
| `AssetFields.MergeSourcesUnion` | internal/models/asset_merge.go:220-237 | merging sources unites their parts, sorted and without repetition |
| `AssetFields.MergedRecordsStand` | internal/models/asset_clone.go:77-127 | merging records makes none up: each is one of either side, trimmed and upper-cased |
| `AssetFields.MergeTakes` | internal/models/asset_merge.go:9-96 | what every field of an asset becomes when a sighting is merged in; an enrichment touches neither source nor provenance |
| `GraphIndex.MergeKeepsName` | internal/models/asset_merge.go:9-25 | merging keeps an asset's canonical key and id |
| `GraphIndex.IngestAssetNames` | internal/models/asset_state.go:71-114 | ingesting an asset keeps all indexes exact, and makes its key canonical under the id it had if it had one |
| `GraphIndex.IngestObservationNames` | internal/models/asset_state.go:116-158 | ingesting an observation does the same, creating the asset when the key is new |
| `GraphIndex.ReconciledNames` | internal/models/asset_state.go:41-69 | taking out and re-ingesting unobserved assets keeps every canonical key under its id |
| `GraphIndex.EnsuredCanonical` | internal/models/asset_state.go:3-39 | ensuring the state turns raw assets into a canonical graph and keeps a canonical one, with all its names |
| `GraphIndex.EveryGraphSound` | internal/models/assets.go:3-77 | after any sequence of the public operations the key index is exact, keys are unique, and each observation carries the id of the asset with its own key |
| `GraphIndex.NoIdLost` | internal/models/assets.go:3-77 | no canonical key ever loses its id, however the history goes on |
| `GraphIndex.IndexIsScan` | internal/models/asset_state.go:34-39 | the key index answers every lookup as a linear scan would |
| `GraphOrder.EnsuringIsIdempotent` | internal/models/asset_state.go:3-69 | ensuring the state twice is ensuring it once |
| `GraphOrder.EnsuredFixed` | internal/models/asset_state.go:13-69 | a graph whose assets all carry an observation's id is left as it is |
| `GraphOrder.ReconciledAt` | internal/models/asset_state.go:41-69 | reconciling leaves an observed asset as it is, and replaces one created from an observation by the first sighting of itself |
| `GraphOrder.FirstSightingOfItself` | internal/models/asset_state.go:71-96 | that keeps id, key, date, catch-all flag, ownership and record keys, and shrinks the provenance to its own single item |
| `GraphOrder.IngestAllGathers` | internal/models/asset_state.go:71-114 | under every key, new or not, appending assets merges exactly its sightings, in order, into the asset already there |
| `GraphOrder.HistoryGathers` | internal/models/assets.go:3-53 | after any sequence of operations that append assets or relations, the canonical asset of each key is the merge of all its sightings, whichever calls they came in |
| `GraphOrder.AppendOrderIsIrrelevant` | internal/models/assets.go:9-53 | two histories that submit the same assets, in any order and number and spread over any calls, leave under each key the same date, catch-all flag, provenance keys and record keys; for an IP the same ownership |
| `GraphRecords.ReportsAdded` | internal/models/asset_state.go:160-184 | adding a relation reports that it was added if and only if its fields besides the id were new, and returns it as stored |
| `GraphRecords.EveryGraphRelated` | internal/models/assets.go:33-53 | after any operations the stored relations differ in their fields and the relation index is exact |
| `GraphRecords.RelationsStored` | internal/models/assets.go:33-53 | after any operations, appending relations keeps the old ones in front and adds, once per set of fields, exactly the submitted ones, with an end's canonical id where its identifier is in the graph |
| `GraphSightings.AssetIngested` | internal/models/asset_state.go:71-114 | ingesting an asset cleans it up and names it, merges it into the asset of its key or appends it, leaves every other asset alone, and notes one observation under its id |
| `GraphSightings.ObservationIngested` | internal/models/asset_state.go:116-158 | ingesting an observation does the same with what it reports; only a discovery leaves provenance on the asset it creates |
| `GraphCheck.ValidateCanonicalGraph` | internal/filter/filtering.go:40-96 | counts exactly the assets whose key was first seen under another id, none if and only if no two assets share a key under different ids, the observations without a canonical asset, and the relation ends that are named and missing |
| `GraphCheck.ScanAssets` | internal/filter/filtering.go:45-60 | counts the assets whose key was first seen under another id, and collects the non-blank ids |
| `GraphCheck.ClashCountIff` | internal/filter/filtering.go:50-59 | that count is zero exactly when no two entries share a key under different ids |
| `GraphCheck.ClashCountIs` | internal/filter/filtering.go:50-59 | the count is the number of entries whose key was first seen under another id |
| `GraphCheck.DanglingObservationsAre` | internal/filter/filtering.go:62-71 | dangling observations are counted by position: blank or missing asset |
| `GraphCheck.DanglingRelationsAre` | internal/filter/filtering.go:73-86 | so are relation ends, each by itself |
| `GraphCheck.EndpointAnchoredIff` | internal/models/asset_state.go:165-174 | a stored relation end is blank or canonical if and only if its id was, or its identifier was in the graph |
| `GraphCheck.CanonicalPasses` | internal/filter/filtering.go:40-96 | a canonical graph has no duplicates and no dangling observations |
| `GraphCheck.CheckerFindsNothing` | internal/filter/filtering.go:40-96 | for every graph built through the append operations the filter counts nothing; for relations, when each appended one was resolvable |
| `AssetContexts.AssetContext.EnsureAssetState` | internal/models/assets.go:3-7 | new state is that of the specification |
| `AssetContexts.AssetContext.AppendAssets` | internal/models/assets.go:9-31 | new state is that of the specification |
| `AssetContexts.AssetContext.AppendAssetObservations` | internal/models/assets.go:55-77 | new state is that of the specification |
| `AssetContexts.AssetContext.AppendAssetRelations` | internal/models/assets.go:33-53 | new state is that of the specification; what is stored is `GraphRecords.RelationsStored` |
| `AssetContexts.AssetContext.EnsureAssetStateLocked` | internal/models/asset_state.go:3-32 | rebuild and reconcile when initialised, else empty the graph and ingest the raw assets |
| `AssetContexts.AssetContext.RebuildAssetIndexLocked` | internal/models/asset_state.go:34-39 | the index of the asset list, later entries winning |
| `AssetContexts.AssetContext.ReconcilePendingRawAssetsLocked` | internal/models/asset_state.go:41-69 | keeps the observed assets and re-ingests the others |
| `AssetContexts.AssetContext.IngestAssetLocked` | internal/models/asset_state.go:71-114 | new state is that of the specification; lookups stay in range |
| `AssetContexts.AssetContext.IngestObservationLocked` | internal/models/asset_state.go:116-158 | new state is that of the specification; lookups stay in range |
| `AssetContexts.AssetContext.AddAssetRelationLocked` | internal/models/asset_state.go:160-184 | resolves both ends, and adds and returns the relation if and only if its fields besides the id were new; otherwise returns a blank one and changes no relation |
| `AssetContexts.AssetContext.ResolveCanonicalAssetIDLocked` | internal/models/asset_state.go:202-209 | the id of the canonical asset of a key, or blank |

## Left out

- Network and storage: HTTP, DNS, RDAP, search, LLM judges, Firestore, GCS, exporters and telemetry; fetches, judges and handlers are arbitrary inputs.
- The Firestore store: it reads and then writes outside a transaction, so only the in-memory store is modelled.
- URL, HTML and public-suffix parsing: parameters of the crawl and of the broker (`RegistrableDomain`, `normalizeCrawlerURL` and the like are arbitrary functions).
- Unicode: trimming and case mapping cover ASCII; other characters are left as they are.
- The seed fields address, industry, ASN, CIDR and tags, and the list of executed AI search roots: carried along by the code, read by none of the properties.
- The sharing of evidence slices between `Seeds`, the active and the pending frontier: the context holds values, so an in-place evidence update through one slice is not seen in another.
- The time part of `NewID`: fresh ids are a prefix and a counter. Provenance keys print instants in decimal instead of RFC 3339.
- The relation key is the record of a relation's fields instead of their joined text, so two relations whose joined texts collide are kept apart here.
- Inclusion reasons, RDAP data, IP details, enrichment data and states, and mutation events: merged beside the modelled fields and read by none of the properties.
- Ownership states are parsed values; trimming and lower-casing their spelling is not modelled.
- Asset types and DNS record types contain no bar and domains no comma, which is how the repository uses them: required where a proof needs it.
- `GraphCheck` follows the public append operations only; enrichers that write assets directly are not covered.
- Ownership, run access checks and pivot timestamps in decisions; a pivot is named by its root instead of its id.
- Worker goroutines: claims, heartbeats, releases and ticks are events in any order; the cancellation of work after a failed heartbeat is not modelled.
- A process that dies without saving, panics, listener errors, and storage failures other than those a checkpoint callback or the final publication reports.
- How often a node runs after an error: a failed wave may run again on resume; the results are about placement in a frontier.
- ReviewSafety.ReviewSafety: is about orderly histories, in which a failure behind the last checkpoint overlooks nothing and filters and exporters open no pivot (those in internal/filter and internal/export neither promote nor judge); `ReviewHarm.OrderlyIffNeverHarmful` says that no other history would do.
- GraphOrder.AppendOrderIsIrrelevant: is about histories without appended observations, since re-ingestion shrinks the provenance of what they create, and about assets that come with an id, since a made-up id enters the provenance.
- Pausing.PausingIsInvisible: requires that every promotion is reasoned, and takes the handler's answers to be part of what the deterministic nodes do.
- Scheduling.ExactlyOnceScheduling: is about the frontiers before filtering; a filter or exporter may still register seeds, and no wave follows.
- Lease.MutualExclusion: upserts carry a blank lease id, as the service's records do; `Lease.UpsertKeepsLeaseIff` says what others would do.
- SeedMerges.MergeGathers: is about items that agree, under each key, on naming a value, which all do whose sources and kinds hold no bar (`SeedMerges.BarFreeAgree`); the same holds of the evidence in `Submissions` and `SubmittedSeeds`.
- ReviewSubjects.PivotsAreFaithful: takes submitted domains and registrable domains to hold no comma; the evidence handed to the broker with a promotion is not kept in its pivots.
- Packing.GreedyIsOptimal: takes the prompt size to be monotone.
- Trace and read-model building, retry back-off and output paths.
