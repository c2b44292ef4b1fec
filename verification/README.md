# Verified model of the memory brain's core

This project models the parts of Anda Brain that carry state across many steps and proves what they keep: the shared
runner loop of the formation and maintenance agents, the maintenance slot protocol, the usage ledger with its settler and
the negative cache, the evaluation timeline with its interpreter, validator and scores, the resumable batch of the
command-line client, and the reading of recall traces and answers. To check it with Dafny 4.11, run
`dafny verify dfyconfig.toml` in this directory.

## How it is built

Each component has a specification, written as functions over values, and the program itself in the source's form:
classes with mutable fields and loops over lists. Every method is proved equal to its specification
function for every input and every environment; the promises of the source are then proved about those functions, over
whole runs and histories. No proof depends on Dafny's automatic induction, so `--manual-lemma-induction` may be added to
the command.

| files | component |
|---|---|
| `Engine`, `RunnerLoop`, `RunnerLoopProofs`, `RunnerLoopOutcomes` | the runner loop, its two hosts, compaction, persistence, usage and transcript |
| `MaintenanceSlot` | two atomic flags, claims and guards, any number of threads |
| `Ledger`, `LedgerRuns`, `LedgerTimes`, `LedgerPaging`, `LedgerErasure`, `EntityIds` | the usage ledger and its settler |
| `MissCache` | the negative cache and its keys |
| `Weaving`, `EvalTimeline`, `EvalNoise`, `EvalSharing` | noise woven into a timeline, the check for shared formation |
| `EvalRun`, `EvalRunProofs`, `EvalOrder`, `EvalCalls`, `EvalFailures` | replay in three phases: what is called, in which order, and why it stops |
| `EvalValidation`, `EvalIssues` | the validator and what it promises |
| `EvalFindings`, `EvalCheckpoint`, `EvalScores` | scores of one checkpoint and of a run |
| `Batch`, `BatchRuns`, `BatchOutcomes` | the batch over files, and any number of its runs |
| `RecallFooter`, `RecallTrace`, `RecallEntities`, `RecallCitations` | the answer footer, the trace join, entities and citations |
| `Prelude`, `Text`, `Table` | options, results, clamping; white space, words and case; looking up a row |

What the code does not decide is an environment parameter: clocks, model answers, failures of the store, the graph, the
disk, the server, and crashes. An oracle gives the k-th answer, and every theorem holds for all oracles.

## What is assumed about the surroundings

- The agent engine, a library the repository only calls (`Engine` states what is used of it): a runner that is done
  answers `Ok(None)`; every output advances the runner's own turn counter by one; an output that is done or idle takes the accumulated total with it (stated at `anda_brain/src/agents.rs:254-256`);
  a failed handoff leaves the totals alone or drains them, and what its own summarization turn cost is not knowable.
- The document store: row ids start at one, rise and are never reused; scans go in ascending id order; one operation
  under a component's lock is one step. A failing removal is a parameter.
- Sequentially consistent atomics, as the source asks for.
- One settler at a time, which the source enforces with a lock; anything else may happen between its steps.
- An evaluation driver is a function of the calls made so far: formation of the formation calls, maintenance of the
  policy calls, recall and the judge's verdict of both, since the formation calls are what the memory holds. How the two
  kinds interleave is not visible to it; `EvalOrder` says exactly when they interleave the same.
- A file rename is atomic, and a reply without an error means the server took the submission.
- Numbers are unbounded and scores are reals. Lower-casing is that of ASCII. A missing timestamp, which the source
  replaces with the wall clock, stays missing.

## What was found

- Only a formation that owes no review is sure to bill every turn it paid for (`RunnerLoopProofs.BillsAllIff`). With a
  review to come, the idle turn takes the total with it and the review's turn overwrites what was recorded
  (`ReviewedFormationUnderBills`); maintenance that converges and then hits a budget records nothing
  (`FlippedMaintenanceBillsNothing`). `FailureBillsAllIff`, `ExitBillsAllIff` and `NoTurnRecordsNothing` give what each
  exit misses.
- A conversation that converged, while its loop goes on, is examined once more. If a budget is reached exactly then, it
  turns from Completed to Failed and its usage is overwritten, while the ring still shows it Completed
  (`RunnerLoopProofs.ConvergedIsExaminedAgain`, `ConvergedThenFlipped`).
- A maintenance claim has no identity, so a stale claim dropped late frees the slot of the current one
  (`MaintenanceSlot.LateDropReleasesAnotherClaim`). A settlement is safe from that if and only if its claim is the only
  one alive (`SettlementIsSafeIff`), and never from a `run` started elsewhere (`ForeignRunTakesTheSlot`).
- Paging with limit zero skips dirty rows (`LedgerPaging.LimitZeroSkipsEverything`); the callers never ask for it.
- A settlement pass stops after twenty pages of 500 and the next one begins at the first row again: behind ten thousand
  rows that keep failing, rows starve (`LedgerPaging.SettlementReachesIff`, `RowsAheadStarve`), although the comment at
  `anda_brain/src/space.rs:1615-1618` says that they cannot.
- A lookup in the negative cache that finds a row expired may remove it after it was refreshed
  (`MissCache.RacingPruneLosesFreshMiss`); a hit is safe exactly while no such lookup is in flight (`HitIsSafeIff`).
- A batch run that dies after a submission, or fails to save what became of it, may be followed by one that submits the
  file again; otherwise none does without a retry (`BatchRuns.LosingTrackRepeatsIff`). `CanBeSubmittedIff` says which
  files a run can submit, `AtMostOnce` when no file is submitted twice.
- A batch run that reports success may leave files that failed earlier and are not retried
  (`BatchRuns.SuccessLeavesFailedIff` says exactly which, `SuccessCanLeaveAFailure` gives such runs).
- An odd number of checkpoints, with totals in [0, 1], played backwards mirrors the evolution only when the middle total
  is the mean of all (`EvalScores.OddReversedEvolutionIff`), since the middle one counts as early both ways.
- The shared-formation check does not look at maintenance: a scenario it accepts may still run maintenance between two
  user turns in the interleaved replay and after both over the fork (`EvalOrder.ForkKeepsOrderIff` says exactly when).

## Model

| member | source | states |
|---|---|---|
| `RunnerLoop.RestoreTotals` | anda_brain/src/agents.rs:310-318 | totals drained by a failed handoff come back; totals that were left alone are not doubled |
| `RunnerLoop.AdoptCompacted` | anda_brain/src/agents.rs:303-309 | the replacement runner holds everything paid so far and is told to go on |
| `RunnerLoop.CompactRunnerIfNeeded` | anda_brain/src/agents.rs:279-320 | compaction is inert on a finished runner, carries the whole total on success and loses none on failure |
| `RunnerLoop.AppendRunnerHistory` | anda_brain/src/agents.rs:347-372 | appends exactly the suffix of the cumulative history not yet stored, dropping the original input once |
| `RunnerLoop.HostAgent.PersistSnapshot` | anda_brain/src/agents.rs:115-117 | a snapshot is appended to what the store holds |
| `RunnerLoop.HostAgent.MarkFailed` | anda_brain/src/agents.rs:118-120 | the conversation ends Failed with the reason, and that is what the store holds last |
| `RunnerLoop.HostAgent.PushCompletedHistory` | anda_brain/src/agents.rs:329-345 | only Completed conversations enter the ring, which keeps the newest ones |
| `RunnerLoop.HandleOutput` | anda_brain/src/agents.rs:188-243 | the accounting of one returned output refines the step function of the loop |
| `RunnerLoop.Pass` | anda_brain/src/agents.rs:154-246 | one pass of the loop body over mutable runner, host and conversation refines the pass function |
| `RunnerLoop.IterateAdvances` | anda_brain/src/agents.rs:158-164 | a pass that goes on has spent at least one turn and started below the limit, so the loop terminates |
| `RunnerLoop.DriveRunnerLoop` | anda_brain/src/agents.rs:142-269 | the loop, exits and tail flush included, computes exactly the run function for every environment |
| `RunnerLoopProofs.PassTurns` | anda_brain/src/agents.rs:173-192 | a pass spends at most two model turns, none of them once the limit is reached |
| `RunnerLoopProofs.TurnBudget` | anda_brain/src/agents.rs:154-193 | the counter is the number of model turns spent, compactions included, and a run overshoots the limit by at most one |
| `RunnerLoopProofs.PassKeepsSynced` | anda_brain/src/agents.rs:221-231 | between writes only throttled Working turns, fewer than the throttle, are missing from the store |
| `RunnerLoopProofs.EveryExitIsDurable` | anda_brain/src/agents.rs:249-268 | at every exit the newest stored snapshot is the conversation in memory |
| `RunnerLoopProofs.CrashLosesFewTurns` | anda_brain/src/agents.rs:63-76 | at every loop head the store is fewer than five turns behind, and holds the conversation as it then was |
| `RunnerLoopProofs.ConvergedIsExaminedAgain` | anda_brain/src/agents.rs:158-171 | whenever the loop goes on after a turn that converged, under either host, the conversation stays Completed if and only if neither budget is reached at the next loop head; otherwise it turns Failed with the drained usage, while the ring still shows it Completed |
| `RunnerLoopProofs.ConvergedThenFlipped` | anda_brain/src/agents/maintenance.rs:437-441 | for every cost there is a run whose only turn converges and that nevertheless ends Failed with no usage |
| `RunnerLoopProofs.TranscriptIsConcatenation` | anda_brain/src/agents.rs:347-372 | from any loop head on, the stored messages are what precedes followed by each runner's latest history |
| `RunnerLoopProofs.StoredTranscript` | anda_brain/src/agents.rs:173-202 | over a whole run the stored messages are the concatenation of the runners' latest histories, after the original input only when no history came before the first compaction |
| `RunnerLoopProofs.PassUsage` | anda_brain/src/agents.rs:211-211 | one pass keeps the runner total equal to what was paid since the last drain |
| `RunnerLoopProofs.UsageAtExit` | anda_brain/src/agents.rs:249-260 | a failure exit records what the runner still holds, any other exit what the newest turn reported |
| `RunnerLoopProofs.FailureBillsAllIff` | anda_brain/src/agents.rs:257-260 | a failure exit misses exactly what was drained before, so it records every turn paid for, compactions included, if and only if nothing had been drained |
| `RunnerLoopProofs.ExitBillsAllIff` | anda_brain/src/agents.rs:254-256 | any other exit misses exactly what was drained before its newest turn and what was paid after it, so it records every turn paid for if and only if both are nothing |
| `RunnerLoopProofs.NoTurnRecordsNothing` | anda_brain/src/agents.rs:249-260 | a normal exit that never had a turn leaves the recorded usage as it was |
| `RunnerLoopProofs.BillsAllIff` | anda_brain/src/agents.rs:249-260 | from the start of a run: every turn paid for is billed, on every failure exit and every exit with a turn and whatever clock, model and engine do, if and only if the host is a formation that owes no review (or the runner is finished already) |
| `RunnerLoopProofs.ReviewedFormationUnderBills` | anda_brain/src/agents/formation.rs:479-485 | from any start and for all costs, a formation that idles once at cost `a` and is done with its review at cost `b` ends Completed with usage `b`, although `a` and `b` were paid |
| `RunnerLoopProofs.FlippedMaintenanceBillsNothing` | anda_brain/src/agents.rs:158-171 | from any start and for every cost, a maintenance run whose only turn converges and that then finds its time spent records no usage at all |
| `RunnerLoopProofs.FailedMaintenanceBills` | anda_brain/src/agents.rs:249-260 | a failed maintenance run, whose runner idles only when it is done, bills every turn paid for, unless its last turn had converged: then it bills nothing |
| `RunnerLoopProofs.RingHoldsNewest` | anda_brain/src/agents.rs:329-345 | after any conversations were offered, the ring holds exactly the newest completed ones, in order |
| `RunnerLoopProofs.RunRing` | anda_brain/src/agents.rs:206-219 | over a whole run the ring ends with the newest of what it held and of what the run completed, in order, also when a budget fails the conversation afterwards |
| `RunnerLoopProofs.ReviewBeforeCompletion` | anda_brain/src/agents/formation.rs:469-492 | over any run, formation never completes an idle runner whose review pass is still owed |
| `RunnerLoopProofs.CompletedFormationIsFinal` | anda_brain/src/agents/formation.rs:479-492 | over a whole run of formation with no review to come, no loop head finds the conversation Completed: the turn that converges leaves the loop, so no budget flips it |
| `RunnerLoopProofs.OutcomeIsExplained` | anda_brain/src/agents/formation.rs:473-477 | whichever exit a run takes, a failed conversation has its reason and a completed formation carries no old one |
| `RunnerLoopProofs.ReviewIsPrompted` | anda_brain/src/agents/formation.rs:479-485 | over any run of a formation that owes its review: the turn that idles queues the review prompt last and settles the debt, no other turn does either, so the prompt is queued once at most, and once exactly when the debt is settled |
| `RunnerLoopProofs.CompletedAfterReview` | anda_brain/src/agents/formation.rs:469-492 | such a formation that ends Completed was prompted for its review exactly once, unless its runner is done |
| `RunnerLoopOutcomes.PassFails` | anda_brain/src/agents.rs:158-193 | a pass fails exactly for the first of: 200 turns spent, 30 minutes over, a failed handoff, a broken runner; a finished runner is neither handed off nor asked |
| `RunnerLoopOutcomes.FailureIsRecorded` | anda_brain/src/agents.rs:257-260 | a run that fails ends Failed with the reason of the pass that ended it |
| `RunnerLoopOutcomes.TurnOutcome` | anda_brain/src/agents.rs:194-219 | after an answered turn the conversation is Failed exactly when the runner reports a failure, Completed exactly when the runner is done, or idle with a formation that owes no review, and Working otherwise |
| `RunnerLoopOutcomes.NoTurnNoChange` | anda_brain/src/agents.rs:154-193 | a pass without an answered turn leaves conversation, store, ring and host as they were |
| `RunnerLoopOutcomes.WritesEveryFifth` | anda_brain/src/agents.rs:221-231 | a turn is written exactly when it is the fifth since the last write or no longer Working |
| `RunnerLoopOutcomes.LastPass` | anda_brain/src/agents.rs:249-268 | what each exit leaves in memory and in the store |
| `RunnerLoopOutcomes.CompactionGoesOn` | anda_brain/src/agents.rs:296-309 | a handoff that succeeds costs one turn and leaves a fresh runner, told to go on, that holds everything paid and used |
| `RunnerLoopOutcomes.NoCompaction` | anda_brain/src/agents.rs:279-320 | without a handoff that succeeds compaction changes nothing |
| `RunnerLoopOutcomes.ToolsAreKept` | anda_brain/src/agents.rs:310-318 | over a whole run, failed handoffs included, no tool invocation is lost or counted twice |
| `RunnerLoopOutcomes.RunByNumber` | anda_brain/src/agents.rs:63-76 | a run spends at most 201 turns and leaves at most the two newest completed conversations in the ring |
| `MaintenanceSlot.StepMovesToken` | anda_brain/src/agents/maintenance.rs:43-49 | every atomic step uses up and leaves behind exactly the tokens it names |
| `MaintenanceSlot.StepKeepsInv` | anda_brain/src/agents/maintenance.rs:211-225 | every atomic step keeps: the flag is set exactly when one token exists |
| `MaintenanceSlot.ProcessingCountsTokens` | anda_brain/src/agents/maintenance.rs:26-106 | in every reachable state the flag is set exactly when a token exists, and never two do |
| `MaintenanceSlot.MutualExclusion` | anda_brain/src/agents/maintenance.rs:211-225 | two cycles never run together, even when claims are dropped late |
| `MaintenanceSlot.SlotIsFreeWhenQuiet` | anda_brain/src/agents/maintenance.rs:26-49 | once every claim and guard is gone and no call is half done, the slot is free |
| `MaintenanceSlot.CarriedExcludesAll` | anda_brain/src/agents/maintenance.rs:86-92 | while the flag carries a claim nobody else holds the slot in any form |
| `MaintenanceSlot.SettlementIsSafeIff` | anda_brain/src/space.rs:1353-1359 | a carried claim stays carried through everything others may do, short of a `run` or of dropping this claim, if and only if it is the only claim alive; that is what forgetting consumed claims is for |
| `MaintenanceSlot.ForeignRunTakesTheSlot` | anda_brain/src/agents/maintenance.rs:211-219 | at any moment of a settlement a thread that does not own the claim can start a `run`, which takes the slot over |
| `MaintenanceSlot.SettlementExclusiveIff` | anda_brain/src/agents/maintenance.rs:43-49 | over a stretch of steps, the swaps of the external flag are what ends the hold of a claim, and nothing else is |
| `MaintenanceSlot.LateDropReleasesAnotherClaim` | anda_brain/src/agents/maintenance.rs:43-49 | dropping a stale claim frees the slot of the current one, and a second cycle starts beside its owner |
| `MaintenanceSlot.StaleClaimIsReachable` | anda_brain/src/agents/maintenance.rs:211-219 | such a stale claim exists after a hook-triggered run inherits the older claim |
| `MaintenanceSlot.ClaimLivesUntilEnded` | anda_brain/src/agents/maintenance.rs:26-49 | through any steps of any threads, a claim lives with its owner until it is dropped or forgotten, and may be forgotten exactly when its owner has started a `run` since |
| `MaintenanceSlot.AtomicBool.CompareExchange` | anda_brain/src/agents/maintenance.rs:94-97 | exchanges the value exactly when it was the expected one |
| `MaintenanceSlot.MaintenanceAgent.TryClaimCas` | anda_brain/src/agents/maintenance.rs:93-100 | the claim's exchange is the first claim step of the protocol and keeps its invariant |
| `MaintenanceSlot.MaintenanceAgent.PublishClaim` | anda_brain/src/agents/maintenance.rs:101-105 | publishing makes the flag carry the new claim |
| `MaintenanceSlot.MaintenanceAgent.DropClaimSwap` | anda_brain/src/agents/maintenance.rs:43-45 | the dropped claim has to clear the slot exactly when it took the flag back |
| `MaintenanceSlot.MaintenanceAgent.DropClaimStore` | anda_brain/src/agents/maintenance.rs:46-46 | clearing the slot ends the release |
| `MaintenanceSlot.MaintenanceAgent.RunInherit` | anda_brain/src/agents/maintenance.rs:214-214 | a run inherits the slot exactly when the flag was set |
| `MaintenanceSlot.MaintenanceAgent.RunAcquire` | anda_brain/src/agents/maintenance.rs:215-225 | otherwise it gets the slot exactly when it was free |
| `MaintenanceSlot.MaintenanceAgent.DropGuard` | anda_brain/src/agents/maintenance.rs:27-32 | dropping the guard frees the slot and leaves no other guard |
| `Ledger.UsageLedger.RecordRecalls` | anda_brain/src/ledger.rs:123-159 | every entity up to a database fault is recalled once, in order; what was written before the fault stays |
| `Ledger.UsageLedger.RecordSelfTests` | anda_brain/src/ledger.rs:284-316 | the same for self-tests |
| `Ledger.UsageLedger.Correct` | anda_brain/src/ledger.rs:166-198 | a first correction is recorded and reported, a repeated one changes nothing |
| `Ledger.UsageLedger.ForgetEntity` | anda_brain/src/ledger.rs:346-356 | the entity's row is removed, if there is one |
| `Ledger.UsageLedger.Mark` | anda_brain/src/ledger.rs:252-278 | marking compares with the current count, so recalls that came meanwhile keep the row dirty |
| `Ledger.UsageLedger.UnflushedRecalls` | anda_brain/src/ledger.rs:210-246 | a page is the first dirty ids after the cursor that carry a delta, and a next cursor is given exactly when dirty rows remain |
| `LedgerRuns.StepKeepsInv` | anda_brain/src/space.rs:1611-1664 | any interleaving of recalls, corrections, self-tests, forgets and settler steps, failed writes, lost replies and aborted passes included, keeps: one row an entity, dirty exactly when recalls are unflushed, clean rows agree with the graph |
| `LedgerRuns.CountersAreExact` | anda_brain/src/ledger.rs:123-198 | recalls, self-tests and the correction mark of an entity are exactly those recorded since it was last forgotten |
| `LedgerRuns.FirstCorrectionOnce` | anda_brain/src/ledger.rs:161-198 | a correction is reported as first exactly when there was none since the last forget |
| `LedgerRuns.NoDeltaIsLost` | anda_brain/src/ledger.rs:200-278 | a recalled entity has a row with every recall; it is dirty exactly while some are unflushed; once clean, the graph shows all of them |
| `LedgerRuns.GraphIsNewestWrite` | anda_brain/src/space.rs:1630-1660 | in every history the graph shows exactly the newest write that reached it, its reply lost or not; failed writes and forgotten rows change nothing |
| `LedgerTimes.StepTimes` | anda_brain/src/ledger.rs:123-198 | every step of a recall, correction, self-test, forget or settlement changes the times of exactly the entity it is about |
| `LedgerTimes.TimesAreExact` | anda_brain/src/ledger.rs:123-198 | in every history, the recall time is that of the newest recall and the correction time that of the first correction, both since the entity was last forgotten |
| `LedgerTimes.ForgetIff` | anda_brain/src/ledger.rs:346-356 | forgetting reports a removal exactly when there was a row, and leaves none |
| `LedgerPaging.PageCovers` | anda_brain/src/ledger.rs:210-246 | a page visits exactly the dirty ids between its cursors, in order |
| `LedgerPaging.PagingIsCompleteAndFair` | anda_brain/src/ledger.rs:200-246 | following the cursors through a changing ledger until it is exhausted visits ids in strictly ascending order and every row that stays dirty throughout |
| `LedgerPaging.ReturnsEveryDirtyRow` | anda_brain/src/ledger.rs:236-245 | however the ledger changes between pages, and between listing a page and reading it, the rows returned are in strictly ascending order of id and hold every row that stays dirty throughout |
| `LedgerPaging.RowsAheadStarve` | anda_brain/src/space.rs:1615-1664 | however the ledger changes, a row is not visited when as many rows ahead of it stay dirty as the pages of the scan can hold |
| `LedgerPaging.PassReachesIff` | anda_brain/src/space.rs:1619-1664 | while nothing flushes, a scan of so many pages reaches the k-th dirty row if and only if the pages hold more than k |
| `LedgerPaging.SettlementReachesIff` | anda_brain/src/space.rs:3348-3352 | a settlement pass whose rows all keep failing reaches the k-th if and only if k is below ten thousand |
| `LedgerPaging.PagingTerminates` | anda_brain/src/ledger.rs:229-234 | the scan ends within as many pages as the highest id divided by the limit, plus one |
| `LedgerPaging.LimitZeroSkipsEverything` | anda_brain/src/ledger.rs:229-234 | with limit zero nothing is returned, yet the cursor moves past a dirty row |
| `LedgerErasure.SelfTestsNeverCountAsUse` | anda_brain/src/ledger.rs:280-316 | deleting all self-tests and corrections from any history changes no recall count, recall time, flushed count or dirty flag |
| `EntityIds.PropositionIdIff` | anda_brain/src/assess.rs:279-287 | proposition ids are exactly `P:`, a number, a colon and a predicate |
| `EntityIds.EntityIdIff` | anda_brain/src/assess.rs:289-292 | entity ids are exactly the concept ids, `C:` and a number, and the proposition ids, `P:`, a number, a colon and a predicate |
| `EntityIds.ConceptIdIff` | anda_brain/src/assess.rs:272-277 | concept ids are exactly `C:` and a number |
| `MissCache.SameKeyIff` | anda_brain/src/ledger.rs:413-420 | two queries share an entry exactly when they are the same words up to case |
| `MissCache.KeyIsNormal` | anda_brain/src/ledger.rs:413-420 | a key is its own key |
| `MissCache.MissCache.Lookup` | anda_brain/src/ledger.rs:439-441 | without the lock: answers whether an unexpired miss is cached, and names the row it found expired |
| `MissCache.MissCache.RemoveStale` | anda_brain/src/ledger.rs:442-445 | under the lock: takes that row out by its id, whatever it holds by then |
| `MissCache.MissCache.IsFreshMiss` | anda_brain/src/ledger.rs:437-449 | both with nothing in between: answers whether an unexpired miss is cached, and removes the row it found expired |
| `MissCache.MissCache.PurgePage` | anda_brain/src/ledger.rs:510-514 | removes exactly the expired rows of a page that can be removed |
| `MissCache.MissCache.PurgeExpired` | anda_brain/src/ledger.rs:489-515 | removes exactly the expired rows that can be removed, and ends even when every removal fails |
| `MissCache.MissCache.ClearPage` | anda_brain/src/ledger.rs:544-548 | removes exactly the rows of a page that can be removed, and counts them |
| `MissCache.MissCache.Clear` | anda_brain/src/ledger.rs:517-551 | removes every row that can be removed, counts them, and ends even when every removal fails |
| `MissCache.MissCache.RecordMiss` | anda_brain/src/ledger.rs:451-487 | refreshes the entry of the key or adds one, purging at the cap, and caches nothing when still full |
| `MissCache.SweepStep` | anda_brain/src/ledger.rs:524-549 | removing the doomed rows of the page after the cursor carries the sweep to the page's last row; an empty page ends it |
| `MissCache.StepKeepsValid` | anda_brain/src/ledger.rs:382-386 | every step keeps one row a key and at most 1024 rows |
| `MissCache.NeverBeyondCap` | anda_brain/src/ledger.rs:382-386 | so does every history |
| `MissCache.HitIsJustified` | anda_brain/src/ledger.rs:366-380 | a hit means the same words were recorded within the time to live, with no complete clear after |
| `MissCache.RecordedIsHitIff` | anda_brain/src/ledger.rs:455-487 | recording a query with at least one word and a key of at most 512 characters makes it a hit if and only if it was cached or there is room, after a purge if need be; recording any other query changes nothing |
| `MissCache.FreshIff` | anda_brain/src/ledger.rs:437-449 | a query is a hit exactly when a row of its words is there that was recorded within the hour |
| `MissCache.BlankKeyIff` | anda_brain/src/ledger.rs:414-420 | a key is empty exactly when the query has no word |
| `MissCache.RemovalsFollowLookups` | anda_brain/src/ledger.rs:439-445 | in every history each lookup that finds a row expired tries to remove it once at most, and nobody else does |
| `MissCache.HitIsSafeIff` | anda_brain/src/ledger.rs:437-551 | with clocks that do not run back and no clear that takes it, a hit stays one until its time is up, whatever is looked up, recorded, purged or removed in between, if and only if no lookup is in flight that found its row expired |
| `MissCache.RacingPruneLosesFreshMiss` | anda_brain/src/ledger.rs:439-445 | from any state where a lookup of a query with a word, its key within 512 characters, finds the row expired: a recording in between makes the query a hit, and the removal of the lookup then loses it |
| `EvalTimeline.NoiseText` | anda_brain/src/eval.rs:1917-1936 | a noise turn says an entry of the configured corpus, or of the built-in one of 24 |
| `EvalNoise.ReferenceValues` | anda_brain/src/eval.rs:1898-1904 | the generator gives the published values of splitmix64 |
| `EvalNoise.DrawsFromSeven` | anda_brain/src/eval.rs:1933-1934 | the state of a draw holds the seed, the index of the entry above the lowest 16 bits, and the place in the gap in them |
| `EvalNoise.StatesDiffer` | anda_brain/src/eval.rs:1933-1934 | different places, within 2^48 entries and 2^16 turns a gap, draw from different states |
| `EvalNoise.NoiseSays` | anda_brain/src/eval.rs:1930-1948 | a noise turn says the entry, of its own or of the built-in corpus of 24, that the draw for its place picks |
| `EvalTimeline.NoiseBetween` | anda_brain/src/eval.rs:1932-1948 | the noise between two entries is the block the expansion puts there |
| `EvalTimeline.Weave` | anda_brain/src/eval.rs:1930-1951 | the loop over entries puts every entry after the noise before it |
| `EvalTimeline.EffectiveTimeline` | anda_brain/src/eval.rs:1909-1953 | the nested loops compute the woven timeline |
| `EvalTimeline.EffectiveLengthIs` | anda_brain/src/eval.rs:1924-1929 | n entries become n + k(n - 1) turns |
| `EvalTimeline.EffectiveAt` | anda_brain/src/eval.rs:1906-1908 | every authored turn is at its place, in order, and the turns between are noise that reuses the earlier id and timestamp |
| `EvalTimeline.Origin` | anda_brain/src/eval.rs:1930-1951 | every turn of the expansion is an authored turn or noise after one |
| `EvalTimeline.NoiseOnlyAdds` | anda_brain/src/eval.rs:1906-1908 | taking the noise out gives the authored timeline back |
| `EvalTimeline.SharedFormationIssues` | anda_brain/src/eval.rs:1045-1089 | the loop over scenarios reports exactly the issues of each, in order |
| `EvalTimeline.LateUserTurns` | anda_brain/src/eval.rs:1049-1068 | the loop over one timeline finds its late user turns in order |
| `EvalTimeline.LateTurnsExact` | anda_brain/src/eval.rs:1049-1068 | the authored turns it names are exactly the user turns after a checkpoint |
| `EvalTimeline.SharedIssuesExact` | anda_brain/src/eval.rs:1042-1044 | nothing is reported if and only if no user turn, authored or noise, follows a checkpoint in the replayed timeline |
| `EvalSharing.SharedIssuesAreExact` | anda_brain/src/eval.rs:1045-1089 | over all scenarios exactly the user turns after a checkpoint are reported, and the noise that would come after one, each once, scenario by scenario and turn by turn |
| `EvalRun.RunCheckpoint` | anda_brain/src/eval.rs:2228-2256 | the sample loop makes the recalls of the sampling function, up to the first error |
| `EvalRun.RunTurn` | anda_brain/src/eval.rs:1753-1815 | one turn of the interpreter refines the step function of its phase |
| `EvalRun.RunTimeline` | anda_brain/src/eval.rs:1728-1834 | the interpreter, early error returns included, computes the replay of its phase |
| `EvalRun.FailureIsFinal` | anda_brain/src/eval.rs:1757-1770 | nothing is called after an error |
| `EvalRun.HalvesAgree` | anda_brain/src/eval.rs:1679-1690 | up to any turn, the interleaved run agrees with the two halves when user turns come first |
| `EvalRun.SharedFormationIsFaithful` | anda_brain/src/eval.rs:1679-1690 | without shared-formation issues a full run makes the formation half's calls, prompts included, and the policy half's calls with the same answers and satisfaction, and completes exactly when both halves do |
| `EvalRun.IssuesCanChangeAnswers` | anda_brain/src/eval.rs:1042-1044 | with an issue, some reliable driver answers differently in the interleaved run and over the fork |
| `EvalRun.OnlyTheDriverFails` | anda_brain/src/eval.rs:3013-3047 | turns that carry what their kind needs never stop a run for missing messages, intent or query |
| `EvalOrder.OrderIsKeptIff` | anda_brain/src/eval.rs:1753-1815 | a run makes its formation calls before its policy calls if and only if no user turn comes after a maintenance turn or checkpoint and the cadence is off or not due before the last user turn |
| `EvalOrder.ForkKeepsOrderIff` | anda_brain/src/eval.rs:1679-1690 | without shared-formation issues a checkpoint reads a memory made by the same calls in the interleaved run and over the fork, and in the same order if and only if every user turn comes before anything a policy does |
| `EvalRunProofs.TranscriptIsTail` | anda_brain/src/eval.rs:1836-1865 | the simulator's context is always the last twelve lines of the whole conversation, noise left out |
| `EvalRunProofs.CadenceDivides` | anda_brain/src/eval.rs:1777-1790 | without explicit maintenance turns, cycles so far and turns since the last one are quotient and remainder of the user turns by the cadence |
| `EvalCalls.CadenceIsExact` | anda_brain/src/eval.rs:1777-1800 | in every fine replay with policies, maintenance turns or not, a turn makes a maintenance call if and only if it is a maintenance turn, or a user turn with which the user turns since the newest maintenance call of either kind reach the cadence |
| `EvalCalls.MaintenanceCallSays` | anda_brain/src/eval.rs:2090-2145 | a maintenance turn sends its own input, or a daydream; the cadence sends the profile's scope and the threshold trigger |
| `EvalCalls.CheckpointSays` | anda_brain/src/eval.rs:2186-2300 | a checkpoint asks one query, explicit before spoken before first message, as often as the profile wants samples and at least once, with the turn's context before the scenario's, over the memory of its phase, and keeps the replies in order |
| `EvalCalls.MemorySays` | anda_brain/src/eval.rs:1955-2088 | a user turn is remembered with its context and time: its messages before its line, or what the simulator wrote when told the hidden profile, the intent, the latest lines and the five latest ratings |
| `EvalFailures.WhyTurnFails` | anda_brain/src/eval.rs:1753-1815 | a turn of a fine run fails if and only if it lacks its messages, intent or query, the simulator writes only white space, or the last call it made got no reply; which of these, is told by the error |
| `EvalFailures.FailsAtOneTurn` | anda_brain/src/eval.rs:1753-1815 | a failed run stopped at one turn and ended as this turn left it |
| `EvalFailures.TranscriptSays` | anda_brain/src/eval.rs:1836-1865 | what a fine turn adds to the twelve lines the simulator sees: the simulated message, the line, or the texts of the first message, and nothing for noise; at a checkpoint the answer |
| `EvalValidation.ValidateHeader` | anda_brain/src/eval.rs:1102-1129 | reports the empty timeline and the noise configuration, and counts the noise turns |
| `EvalValidation.ValidateTurn` | anda_brain/src/eval.rs:1131-1200 | reports a reserved flag, a repeated or falling turn number, and missing input, intent or query |
| `EvalValidation.ValidateTimeline` | anda_brain/src/eval.rs:1131-1200 | does so for every turn in order and counts turns by kind |
| `EvalValidation.ValidateScenarioPlan` | anda_brain/src/eval.rs:1091-1210 | the plan and the issues of a scenario |
| `EvalValidation.ValidationIsSound` | anda_brain/src/eval.rs:1146-1197 | a scenario without errors never stops a run, in any phase and with any driver, for missing messages, intent or query, noise included |
| `EvalValidation.SplitIffNoIssue` | anda_brain/src/eval.rs:1042-1089 | for a scenario that passes, forming once and forking is faithful under every driver if and only if the shared-formation check is silent, where a driver knows the formation and the policy calls so far but not how they interleave |
| `EvalValidation.EffectiveCounts` | anda_brain/src/eval.rs:1929-1951 | kind by kind, the replayed timeline holds the authored turns, plus k(n - 1) normal ones |
| `EvalValidation.PlanIsExecuted` | anda_brain/src/eval.rs:1091-1210 | unless the noise count saturates, a completed run makes exactly the simulator calls, memories and recalls the plan counts |
| `EvalIssues.IssuesAreExact` | anda_brain/src/eval.rs:1091-1210 | validation reports exactly the issues that are due, each once: those of the scenario as a whole, then turn by turn, then the missing checkpoints |
| `EvalIssues.PassesIff` | anda_brain/src/eval.rs:1131-1200 | a scenario passes if and only if its noise entries have text and every turn has its own number, no reserved flag, and what its kind asks for: a line that is not blank or any messages, an intent, or a query |
| `EvalIssues.PlanNoiseIs` | anda_brain/src/eval.rs:1119-1123 | the plan announces as many noise turns as the replay adds, up to the largest 64-bit number |
| `EvalScores.WeightedWithin` | anda_brain/src/eval.rs:2917-2927 | a time-weighted score lies between the least and the greatest checkpoint score |
| `EvalScores.LaterIsBetter` | anda_brain/src/eval.rs:2902-2906 | moving a better score later never lowers the weighted score |
| `EvalScores.AggregateWithin` | anda_brain/src/eval.rs:2907-2964 | the total of a run lies between its checkpoints' totals and its evolution in [0, 1] |
| `EvalScores.AggregateLater` | anda_brain/src/eval.rs:2902-2906 | of two runs that differ in the order of two checkpoints, the one with the better later is no worse |
| `EvalScores.AggregateFieldsWithin` | anda_brain/src/eval.rs:2907-2964 | every field of the aggregate lies between the least and the greatest value its checkpoints have in that field |
| `EvalScores.AggregateSwap` | anda_brain/src/eval.rs:2907-2964 | exchanging two checkpoints moves each of seven fields by exactly the difference of the two, times how far apart they are, over the sum of the weights |
| `EvalScores.SmallAggregates` | anda_brain/src/eval.rs:2907-2944 | a single checkpoint keeps its evolution, and without any every field is zero |
| `EvalScores.ScoredAre` | anda_brain/src/eval.rs:2908-2916 | the scores that count are those of the turns that have one, all of them, in order |
| `EvalScores.AggregateImproves` | anda_brain/src/eval.rs:2929-2944 | checkpoints that never get worse give an evolution of at least one half |
| `EvalScores.ReversedEvolution` | anda_brain/src/eval.rs:2929-2944 | an even number of checkpoints played backwards mirrors the evolution |
| `EvalScores.OddReversedEvolutionIff` | anda_brain/src/eval.rs:2938-2941 | an odd number of checkpoints, with totals in [0, 1], mirrors the evolution if and only if the middle total is the mean of all, since the middle one counts as early both ways |
| `EvalScores.OddEvolutionIsNotMirrored` | anda_brain/src/eval.rs:2938-2941 | a run that only its middle checkpoint fails is not mirrored |
| `EvalScores.CountSample` | anda_brain/src/eval.rs:2415-2427 | a sample adds one to every key it mentions, however often, and keeps the first finding of a key |
| `EvalScores.MajorityFindings` | anda_brain/src/eval.rs:2410-2435 | one sample is reported as it is; of several, exactly the keys at least half of them mention, each with its first finding |
| `EvalScores.SupportIs` | anda_brain/src/eval.rs:2414-2427 | the count of a finding is the number of samples that mention it |
| `EvalScores.FirstOfIs` | anda_brain/src/eval.rs:2414-2427 | the report that stands for a finding is the first of the first sample that mentions it |
| `EvalCheckpoint.WeighExpectations` | anda_brain/src/eval.rs:2658-2752 | the loop over expectations adds up the weights and finds what the probes and the answer say |
| `EvalCheckpoint.AddJudgeFindings` | anda_brain/src/eval.rs:2821-2835 | a judge finding is dropped exactly when kind and expectation were found before |
| `EvalCheckpoint.ScoreCheckpoint` | anda_brain/src/eval.rs:2638-2899 | the scorer yields the total, the clamped parts, and the findings, own ones first, then the judge's new ones, then budgets |
| `EvalCheckpoint.FailedProbeIsNeutral` | anda_brain/src/eval.rs:2677-2692 | an expectation whose probe failed leaves utility, forgetting and calibration as they would be without it |
| `EvalCheckpoint.BetterGraphScoresNoWorse` | anda_brain/src/eval.rs:2784-2816 | a graph that meets more of the expectations never scores worse, with or without a judge |
| `EvalCheckpoint.PartsInRange` | anda_brain/src/eval.rs:2778-2820 | with positive weights and a judge in [0, 1], the memory scores are in [0, 1] before any clamping, so the score handed out is what was computed |
| `EvalCheckpoint.MissesAreProbed` | anda_brain/src/eval.rs:2676-2751 | what is reported as missing or left over its probe said so, and what is reported as a failed probe did fail |
| `EvalCheckpoint.EveryMissIsReported` | anda_brain/src/eval.rs:2676-2751 | conversely, every expectation its probe found unmet or could not settle is reported as such, whatever the judge says |
| `EvalCheckpoint.CalibratedIff` | anda_brain/src/eval.rs:2778-2782 | without a judge the calibration is full if and only if no forbidden term is mentioned |
| `EvalCheckpoint.BetterAnswerScoresNoWorse` | anda_brain/src/eval.rs:2638-2877 | without a judge, an answer that mentions no more of the forbidden and no less of the required and expected terms has no part worse and never a lower total |
| `EvalCheckpoint.BetterJudgeScoresNoWorse` | anda_brain/src/eval.rs:2815-2822 | a judge who rates every part no lower never lowers a part or the total |
| `EvalCheckpoint.OverBudgetRises` | anda_brain/src/eval.rs:2848-2870 | a cost is free up to its limit, counts in full from twice the limit on, and never counts less when it rises |
| `EvalCheckpoint.CostlierScoresNoBetter` | anda_brain/src/eval.rs:2848-2880 | higher latency or token cost never raises the total |
| `EvalCheckpoint.PartsWeigh` | anda_brain/src/eval.rs:2872-2880 | what each part alone is worth |
| `EvalCheckpoint.JudgeDecides` | anda_brain/src/eval.rs:2811-2822 | a judge decides seven tenths of the utility, half of the forgetting and all of the calibration |
| `EvalCheckpoint.FullPartsIff` | anda_brain/src/eval.rs:2784-2810 | without a judge, the utility is full if and only if every memory that should exist does, as far as the probes could tell, and all its terms and all required ones are mentioned; the forgetting if and only if no memory is left over |
| `EvalCheckpoint.HealthyIff` | anda_brain/src/eval.rs:2837-2846 | the graph's own counters go first; without them, health is full if and only if no probe failed |
| `EvalCheckpoint.LastProbeDecides` | anda_brain/src/eval.rs:2668-2677 | of several probes of an expectation the last decides |
| `EvalCheckpoint.AllFoundIff` | anda_brain/src/eval.rs:2676-2751 | the findings about expectations are exactly those due |
| `EvalCheckpoint.AnswerFindingsIff` | anda_brain/src/eval.rs:2647-2656 | so are the findings about the answer as a whole |
| `EvalCheckpoint.ReportedIff` | anda_brain/src/eval.rs:2823-2870 | a checkpoint reports what was found, what the judge adds, and the budgets that were exceeded |
| `EvalCheckpoint.NovelAddsOnce` | anda_brain/src/eval.rs:2823-2835 | of the judge's findings exactly those not found before are added, each once |
| `Batch.FormationBatch.SaveList` | anda-cli/cmd/formation_batch.go:344-364 | the list goes to a temporary file and is renamed: whatever fails or dies in between, the disk holds the old or the new list as a whole |
| `Batch.FormationBatch.MergeEntries` | anda-cli/cmd/formation_batch.go:366-381 | every file gets an entry and entries that existed stay |
| `Batch.FormationBatch.FailFile` | anda-cli/cmd/formation_batch.go:137-144 | a failure is noted, saved and counted, in this order |
| `Batch.FormationBatch.SucceedFile` | anda-cli/cmd/formation_batch.go:200-212 | so is a success |
| `Batch.FormationBatch.SubmitFile` | anda-cli/cmd/formation_batch.go:177-212 | what the reply means for the list, the log and the run |
| `Batch.FormationBatch.TryFile` | anda-cli/cmd/formation_batch.go:135-165 | reading, parsing and size failures never reach the server |
| `Batch.FormationBatch.RunFile` | anda-cli/cmd/formation_batch.go:104-133 | a file is skipped, counted or worked on as its entry says; the attempt is on disk before anything else happens |
| `Batch.FormationBatch.RunFiles` | anda-cli/cmd/formation_batch.go:104-213 | the loop works through the files up to the first ending |
| `Batch.FormationBatch.RunBatch` | anda-cli/cmd/formation_batch.go:53-225 | a whole run, preflight and report included, refines the run function |
| `BatchRuns.ProcessIsSound` | anda-cli/cmd/formation_batch.go:128-212 | working on a file keeps the list coherent and borne out by the log, and every other file untouched, wherever it stops |
| `BatchRuns.RunIsSound` | anda-cli/cmd/formation_batch.go:85-225 | so does a whole run; files it has no business with are as they were |
| `BatchRuns.SucceededIsFinal` | anda-cli/cmd/formation_batch.go:383-395 | over any sequence of runs, a file the disk once marked succeeded was taken by the server and is never submitted again |
| `BatchRuns.FailedWaitsForRetry` | anda-cli/cmd/formation_batch.go:383-395 | a file the disk marks failed is submitted again only by a run with retry on that is not dry |
| `BatchRuns.SubmissionsWithinAttempts` | anda-cli/cmd/formation_batch.go:128-133 | no file is submitted more often than its attempts say |
| `BatchRuns.CanBeSubmittedIff` | anda-cli/cmd/formation_batch.go:383-395 | with a list that is accepted, some environment makes a run submit a file if and only if the run is not dry and the disk shows the file neither succeeded nor failed without a retry |
| `BatchRuns.AtMostOnce` | anda-cli/cmd/formation_batch.go:128-212 | over any sequence of runs without retries none of which crashes or fails to save, every file is submitted at most once |
| `BatchRuns.LosingTrackRepeatsIff` | anda-cli/cmd/formation_batch.go:177-209 | a file the server took in one run can be submitted again by the next, without retries, if and only if the first run died after the submission or failed to save what became of it, whatever the reply |
| `BatchRuns.CompletedRun` | anda-cli/cmd/formation_batch.go:94-225 | a completed run has total = processed + skipped and processed = succeeded + failed; it succeeds exactly when nothing failed, and a dry run submits nothing |
| `BatchRuns.SuccessLeavesFailedIff` | anda-cli/cmd/formation_batch.go:220-224 | when a run that is not dry reports success, a file is failed on disk if and only if it was so before and the run does not retry; every other file has succeeded |
| `BatchRuns.SuccessCanLeaveAFailure` | anda-cli/cmd/formation_batch.go:115-120 | for every failed file there is such a run |
| `BatchRuns.ForeignRunsChangeNothing` | anda-cli/cmd/formation_batch.go:329-340 | however many runs for another directory or selector come along, in whatever mode, the list on disk stays as it is and nothing is submitted |
| `BatchOutcomes.ProcessOutcome` | anda-cli/cmd/formation_batch.go:128-212 | a file that is worked on: the first thing that goes wrong ends the run; else the entry has one more attempt and says what became of the file, and the log a submission exactly when one was made |
| `BatchOutcomes.RunOutcome` | anda-cli/cmd/formation_batch.go:94-225 | a run that gets to its report leaves on disk, for each of its files, the entry it had when nothing was due, and otherwise one more attempt and what became of the file |
| `BatchOutcomes.DiskIsOwned` | anda-cli/cmd/formation_batch.go:312-342 | a run leaves the disk as it was or with a list of its own directory and selector, whichever way it ends |
| `BatchOutcomes.ProcessTally` | anda-cli/cmd/formation_batch.go:137-212 | a file is counted as succeeded or failed exactly when what became of it was saved |
| `Text.TrimIff` | anda_brain/src/assess.rs:456-457 | trimming takes away the white space at both ends and nothing else |
| `Text.WordsAreRuns` | anda_brain/src/ledger.rs:416-418 | the words of a text are its maximal runs without white space, all of them, in order |
| `RecallFooter.NothingIsLost` | anda_brain/src/assess.rs:430-464 | splitting takes out one block at most, the last; the text before it and after it stays character by character, up to the white space at their ends, with a line break between them when neither is blank |
| `RecallFooter.FooterBlock` | anda_brain/src/assess.rs:438-444 | the block of an answer with a footer ends with it, and starts with it exactly when the payload holds no opening tag |
| `RecallFooter.FooterRoundTrip` | anda_brain/src/assess.rs:438-464 | splitting gives the trimmed answer back, whatever tags it holds, if and only if the payload holds no opening tag, and then reads the payload as written |
| `RecallFooter.BlockIff` | anda_brain/src/assess.rs:438-444 | the block that is split off is the one whose closing tag is the last of all and whose opening tag the last before it |
| `RecallFooter.MetaIff` | anda_brain/src/assess.rs:446-454 | a footer reports exactly what stands from its first opening to its last closing brace, the uncertainty moved into [0, 1], and nothing when that cannot be read |
| `RecallTrace.FindSlot` | anda_brain/src/assess.rs:116-120 | finds the latest entry that waits for the output |
| `RecallTrace.FromMessages` | anda_brain/src/assess.rs:95-142 | the loops over messages and parts compute the trace of all parts in order |
| `RecallTrace.EveryOutputLandsOnce` | anda_brain/src/assess.rs:110-134 | entries are the calls and the outputs without a call, and every output fills exactly one |
| `RecallTrace.TraceIsJoin` | anda_brain/src/assess.rs:95-142 | with unique call ids and outputs after their calls, the trace is the calls in order, each with its own output |
| `RecallTrace.OutputOrderDoesNotMatter` | anda_brain/src/assess.rs:116-123 | the order in which outputs arrive makes no difference |
| `RecallTrace.Citations.Take` | anda_brain/src/assess.rs:345-384 | an entity is cited when it is first seen |
| `RecallTrace.Citations.Walk` | anda_brain/src/assess.rs:388-410 | walking a result visits every object with an entity id, outer before inner |
| `RecallTrace.ExtractMemoryCitations` | anda_brain/src/assess.rs:318-329 | the citations are taken from successful outputs only, in order |
| `RecallTrace.EntityIdsOf` | anda_brain/src/assess.rs:298-311 | the entity ids are those of the objects in successful outputs |
| `RecallTrace.CitationsAreFirstVisits` | anda_brain/src/assess.rs:340-384 | citations are of distinct entities, exactly the entity ids, each from the first object that shows it |
| `RecallTrace.PropositionCitesPredicate` | anda_brain/src/assess.rs:351-359 | a proposition without a type of its own is cited by the predicate in its id |
| `RecallEntities.VisitIff` | anda_brain/src/assess.rs:388-410 | an object is visited if and only if it is nested in the value, at whatever path, and its `id` is an entity id |
| `RecallEntities.VisitsAreListed` | anda_brain/src/assess.rs:388-410 | a walk visits each of them once, outer before inner and siblings in order |
| `RecallEntities.EntityIdsIff` | anda_brain/src/assess.rs:298-329 | the entity ids of a trace, and the entities its citations are of, are exactly those shown at any depth of an output that is not an error |
| `RecallEntities.CitationIsFirstShown` | anda_brain/src/assess.rs:340-384 | each citation describes the first object that shows its entity: no place before it does |
| `RecallCitations.GetIff` | anda_brain/src/assess.rs:395-397 | the value of a key is that of its first member, and there is none exactly when no member has the key |
| `RecallCitations.CitationSays` | anda_brain/src/assess.rs:345-384 | a citation carries name, confidence, first source and time of its object, each if and only if the object has it in the right form, and the object's own type |
| `RecallCitations.ConceptKindIff` | anda_brain/src/assess.rs:351-359 | a concept is cited without a kind if and only if it has no type of its own |

## Left out

- Model calls, judge prompts, graph queries, embeddings and the wire formats of messages: they are answers of the environment.
- The engine's rule for when a runner needs compaction, and its history pruning before the formation review: the first is an environment answer, the second changes nothing the loop reads.
- Tool usage is a count and not a table by tool, and failure reasons are kinds and not texts.
- Persistence errors while a snapshot is written: the source logs them and goes on, so the log in the model is the sequence of attempted writes.
- The maintenance watermarks and the formation trigger after a cycle: they do not touch the slot.
- `corrected_since` of the ledger and the decay and correction passes of the settlement: single queries over rows.
- `EvalValidation.ValidateTurn`: leaves the rubric checks of checkpoint turns out, and with them their issues and counts; they concern how a checkpoint is scored, never whether a run can be carried out; more errors only make the hypothesis of the soundness theorem stronger.
- `compare_suites`, sample means and standard deviations: a library sort and one-pass arithmetic.
- Messages of findings and of validation issues: only their kinds, severities and places are kept.
- `EvalValidation.ValidateTimeline`: leaves the same checks out.
- `EvalValidation.ValidateScenarioPlan`: leaves the same checks and the rubric counts of the plan out.
- `EvalRun.RunCheckpoint`: a sample is one call, the recall with the fetch of its trace; graph probes, statistics and judge completions are reads of the memory that end in the driver's verdict. Wait failures become findings and stop nothing.
- `EvalRun.RunTurn`: the same.
- `EvalRun.RunTimeline`: the same.
- `EvalValidation.SplitIffNoIssue`: quantifies over drivers that do not see how formation and policy calls interleave; `EvalOrder.ForkKeepsOrderIff` covers what such a driver could see.
- `MissCache.SameKeyIff`: lower-casing is that of ASCII letters, the source folds all of Unicode.
- `MissCache.KeyIsNormal`: the same.
- `EvalScores.MajorityFindings`: returns the shared findings by key and not as a list in key order.
- Finding the files of a batch and parsing its flags: directory walking and string handling; the list of paths is a parameter. A checklist entry that is a JSON null, which the source would dereference, is not representable.
- `RecallTrace.Citations.Walk`: models a JSON object as a list of fields; the order in which the library's map yields them is that list's.
- `orphan_count`, `first_integer` and `json_hit_count`: reading numbers out of query results.
