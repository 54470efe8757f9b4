# Delivery campaigns and framing plans, modelled and proved

This project models two engines of the orchestrator and proves what they promise.

**The delivery campaign (2.3).** A plan of tasks with dependencies and write scopes is serialised where scopes
overlap, checked, and run in batches. Tasks of a batch run side by side: the model lets any unfinished task take its
next step at any time and lets every port (event store, workspace, attempt store, worker, git) answer anything. One
queue journals everything, a budget admits and records, the journal is projected back into the state of the run, and
a risk assessment guards automatic application. The proofs reach from one step of one task (`TaskExecution`,
`BatchBudget`) over a batch and the run loop (`CampaignRun`, with the facts about its sets in `RunState` and
`Scheduling`) to a whole `start` call (`CampaignStart`). `BatchTrace` takes a batch as the sequence of its steps and
says what the replies along it decide, and `RunHistory` does so for the chain of all batches. `PathClasses` reads
the class of a path off its parts and ending.

**The framing plan.** A revisioned document with append-only knowledge in sections. Superseding an item cascades
along dependencies to a fixpoint (`FramingKnowledge`), deltas and confirmations make the next revision
(`FramingPlan`, and the loops in `FramingOperations`), every run keeps the same laws (`FramingRun`), and what a plan
shows of itself is read off its content (`FramingShown`). `FramingSupersession` composes cascades, `FramingViews`
follows what stands under each key while a delta runs, `FramingSoundness` says exactly when the output of a delta
meets the plan contract again, `FramingRefresh` does so for the delta that follows a change of the repository.
`FramingRebase`, `FramingService` and `FramingMerge` merge stale deltas over a compare-and-swap journal while other
writers act in between. `JsonText` and `StableJson` treat the canonical text behind the fingerprint.

**Supporting cores.** The worker pool (`MapConcurrent`), the execution record and its registry (`ExecutionRecord`,
`ExecutionRegistry`), and target selection (`ExecutionPolicy`). `DependencyGraph`, `Scopes`, `Texts`,
`ExecutionTypes`, `Sorting`, `Decimal` and `Wrappers` are what the others rest on.

Where the original changes state, the model does: budget, event writer, run, worker pool, framing store and service
are classes; the plan builder works in place on an array; the cycle searches mutate their sets. Their methods are
tied to pure functions or predicates on a snapshot of the state, about which the lemmas speak. Thrown errors are
`Err` results.

`dafny verify dfyconfig.toml` checks everything.

## Findings

- A stale contribution is lost when a concurrent writer retired the id it contributes to: the rebase splits it into
  an alternative and a contradiction that depends on the retired id, the operations apply, and the store refuses the
  merged plan (for all such deltas `FramingMerge.RetiredMeanwhileUnsound`, with an input
  `FramingMerge.RetiredMeanwhileRefused`; the exact condition is in `FramingMerge.StaleUpsertsAnswered`, for any
  stale delta in `FramingMerge.StaleDeltaAnswered`).
- The rebase doubles contested operations and lengthens the reason before the form of the delta is checked again: a
  well-formed delta is refused if it then has more than 128 operations or a reason of more than 512 characters
  (`FramingMerge.LongReasonRefused`; exactly when: `FramingMerge.RebasedAccepted`).
- The refresh before a grounded stabilization fails exactly if a listed fact depends on one listed before it, or if
  there are 128 facts or more (`FramingRefresh.RefreshApplies`, with an input for either case).
- A framing delta is checked against the contract before it applies, not after; the store refuses what breaks it.
  When that happens is stated exactly, for every delta, on the plan and the operations
  (`FramingSoundness.DeltaMeetsContract`).
- After approving an execution whose second attempt waits, no call can begin it any more, although the event says
  that the mission can be dispatched again (`ExecutionRecord.ApprovedCanBegin`,
  `ExecutionRecord.SecondApprovalStrands`).
- The canonical text is canonical exactly if the key comparison is a total order (`StableJson.CanonicalExactly`). A
  locale comparison that ties two different keys lets their insertion order through. Target selection depends on the
  order of its lists exactly in the same way (`ExecutionPolicy.OrderIgnoredExactly`).
- The projected task map does not depend on the interleaving of concurrent tasks, the projected campaign status
  does, until a campaign event closes the journal (`TaskExecution.StatusDependsOnInterleaving`,
  `CampaignEvents.StatusAgreesExactly`).

## Model

| member | source | states |
|---|---|---|
| `DependencyGraph.DependsOn` | src/domain/orchestration/orchestration-plan.ts:236-241 | the search with one shared `seen` set answers true exactly when a nonempty dependency path leads there, on cyclic graphs too, and ends on every graph |
| `DependencyGraph.AssertAcyclic` | src/domain/orchestration/orchestration-plan.ts:210-223 | the two-set search accepts exactly the graphs without a cycle, and ends on every graph |
| `PathClasses.SafeScopeLeadsInside` | src/domain/orchestration/orchestration-plan.ts:247 | a scope is safe exactly if it is the whole Project or has no backslash, no empty part and none that stays in place or leads upwards |
| `Scopes.OverlapIsSharedPath` | src/domain/orchestration/orchestration-plan.ts:256-257 | two safe scopes overlap exactly when some safe path lies inside both |
| `Scopes.OverlapTestsAgree` | src/composition/orchestration-v23-plan-builder.ts:194 | the plan builder and the plan test overlap alike |
| `CampaignPlan.AssertIndependentScopesDoNotOverlap` | src/domain/orchestration/orchestration-plan.ts:225-234 | accepts exactly when every two tasks with overlapping write scopes are ordered by dependencies |
| `CampaignPlan.ValidateTasks` | src/domain/orchestration/orchestration-plan.ts:148-172 | the plan checks accept exactly: 1 to 100 tasks that are valid in identity, role, priority, profile requirement, dependencies, scopes (write within read) and texts, unique ids, known dependencies, no cycle, no unordered overlap |
| `CampaignPlan.Ready` | src/domain/orchestration/orchestration-plan.ts:105-112 | holds exactly the tasks that are not completed and whose dependencies all are |
| `CampaignPlan.ReadyIsSorted` | src/domain/orchestration/orchestration-plan.ts:110 | the ready tasks come by falling priority number, and by the collation of their ids where that is the same |
| `PlanBuilder.SerializeOverlaps` | src/composition/orchestration-v23-plan-builder.ts:169-178 | in place: only appends dependencies, each on an earlier task that writes to the same place; with unique ids no cycle appears or disappears, no duplicate and no unknown dependency is introduced, and every two overlapping tasks end up ordered |
| `PlanBuilder.SerializedIsValid` | src/domain/orchestration/orchestration-plan.ts:148-157 | so a plan that was valid but for its overlaps passes every check of the plan after serialising, the bound on dependencies included |
| `TaskExecution.StepProgress` | src/composition/orchestration-v23-runtime.ts:315-369 | one step of a task moves that task strictly forward and no other task at all |
| `TaskExecution.StepAgrees` | src/composition/orchestration-v23-runtime.ts:315-369 | after any step of any interleaving the journal projects each task of the batch as its stage says and every other task as before the batch |
| `TaskExecution.StepDiscipline` | src/composition/orchestration-v23-runtime.ts:315-369 | no step starts a task twice or before everything it depends on has succeeded in the journal |
| `TaskExecution.DisciplineInJournal` | src/composition/orchestration-v23-runtime.ts:208-211 | read off a disciplined journal: at most one start a task, preceded by the success of each transitive dependency |
| `BatchBudget.StepBounded` | src/composition/orchestration-v23-runtime.ts:318-337 | through every interleaving, spent amount plus one full use for each task in flight stays below the limit plus one full use for each place |
| `BatchBudget.StepLedger` | src/composition/orchestration-v23-runtime.ts:337 | the budget is at any time exactly the fold of what was recorded |
| `CampaignRun.CampaignRun.Step` | src/composition/orchestration-v23-runtime.ts:315-369 | the imperative task step equals the step of the state machine, for every answer of the ports; what that step decides is in `BatchTrace` |
| `CampaignRun.CampaignRun.ExecuteBatch` | src/composition/orchestration-v23-runtime.ts:211 | a batch run to its barrier is a sequence of such steps by its tasks, in any interleaving, from all of them waiting to all of them finished; it keeps agreement, discipline, budget bound and acceptance |
| `CampaignRun.CampaignRun.PropagateFailures` | src/composition/orchestration-v23-runtime.ts:203-207 | one pass in plan order gives up, and reports as blocked one after the other, exactly the pending tasks that depend on a failure from before the pass or on one given up earlier in it; it throws only where an append failed |
| `CampaignRun.CampaignRun.SettleBatch` | src/composition/orchestration-v23-runtime.ts:212-216 | moves every task of the batch to the completed or the failed ones by its commit, and only those |
| `CampaignRun.CampaignRun.GiveUp` | src/composition/orchestration-v23-runtime.ts:218 | exactly the tasks still pending fail as unreachable, each reported as blocked, in plan order |
| `CampaignRun.CampaignRun.RunTurn` | src/composition/orchestration-v23-runtime.ts:203-216 | one turn keeps the scheduler, journal and budget invariants, throws only where an append failed, runs the next batch of what the failure pass leaves and settles it; a turn that runs none leaves nothing ready |
| `CampaignRun.CampaignRun.Run` | src/composition/orchestration-v23-runtime.ts:195-223 | the loop ends, and throws exactly if an append failed; no batch is empty, exceeds the limit or holds two tasks whose scopes share a path, and there are no more batches than tasks; the run is blocked exactly if something failed, otherwise every task completed and the commits are there in plan order, each earned in one of the batches |
| `BatchTrace.AdmissionDecides` | src/composition/orchestration-v23-runtime.ts:316-322 | a waiting task is let in exactly if no hard stop is up, no limit of its profile is used up by the records so far (under observation none counts) and its profile can run; otherwise it ends, stopped for the budget or blocked, in that order |
| `BatchTrace.ReturnDecides` | src/composition/orchestration-v23-runtime.ts:336-351 | a task whose worker is back goes on to commit exactly if the worker succeeded, its usage is valid, it uses up no limit in hard-stop mode, the proofs are valid and commits are allowed; otherwise it ends stopped, cancelled, blocked or failed by budget, worker, proofs and authorization, in that order; and what is recorded, and when the hard stop is raised |
| `BatchTrace.ReportDecides` | src/composition/orchestration-v23-runtime.ts:328-335 | the other steps: which event each reports, that it fails without its saved attempt, workspace or commit, and where the task goes |
| `BatchTrace.CommitIsEarned` | src/composition/orchestration-v23-runtime.ts:336-355 | in every interleaving a task ends with a commit exactly if its worker came back fit for one and git then made this very commit |
| `BatchTrace.EventHasReason` | src/composition/orchestration-v23-runtime.ts:315-369 | in every interleaving no event of a task comes without its reason: success after a fit return, a budget stop only on refusal or for its own record in hard-stop mode, a start only after admission, blocking, cancellation and failure each by worker, proofs, authorization, profile or port |
| `BatchTrace.RaiserNeverSucceeds` | src/composition/orchestration-v23-runtime.ts:337-343 | the task whose record raises the hard stop never succeeds |
| `BatchTrace.WaitingIsTurnedAway` | src/composition/orchestration-v23-runtime.ts:316 | a task that still waits when the hard stop is up never starts |
| `RunHistory.SuccessesAreEarned` | src/composition/orchestration-v23-runtime.ts:202-217 | over a whole run, also one that throws, a task has succeeded in the journal exactly if in one of the batches its worker came back fit for a commit and git made it |
| `RunHistory.HardStopOfRun` | src/composition/orchestration-v23-runtime.ts:337-339 | over a whole run the hard stop is up exactly if in hard-stop mode some record has used up a limit of its profile |
| `RunHistory.StopsTheRun` | src/composition/orchestration-v23-runtime.ts:200-211 | from then on, in that batch and all later ones, only tasks that had been let in by then still start |
| `RunHistory.OtherModesRun` | src/domain/orchestration/orchestration-budget.ts:46 | in admission mode and under observation the hard stop never is up, and under observation no task is refused for the budget |
| `CampaignRun.StepInv` | src/composition/orchestration-v23-runtime.ts:211 | the invariant of a running batch is kept by every step any of its tasks can take |
| `RunState.CompletedIsExact` | src/composition/orchestration-v23-runtime.ts:202-218 | with fixed outcomes, `completed` is exactly the tasks that succeed together with all their transitive dependencies |
| `RunState.StuckImpliesFailure` | src/composition/orchestration-v23-runtime.ts:209-219 | on a valid plan nothing is left pending unless something failed |
| `RunState.ReadyBatchDisjoint` | src/composition/orchestration-v23-runtime.ts:208-211 | no path lies in the write scopes of two tasks of one ready batch |
| `RunState.NextBatchIsBatch` | src/composition/orchestration-v23-runtime.ts:208-209 | a batch holds ready pending tasks only, each once, within the limit, and all of them unless it is full |
| `RunState.BatchTakesTheFirst` | src/composition/orchestration-v23-runtime.ts:208 | where the limit binds, nobody left out comes before anybody taken |
| `RunState.BatchEnds` | src/composition/orchestration-v23-runtime.ts:211-216 | after a batch the projected task map again equals the scheduler's sets |
| `RunState.LayersAfterTurn` | src/composition/orchestration-v23-runtime.ts:202-217 | without a binding limit a turn runs exactly one more dependency layer |
| `RunState.BatchIsDepth` | src/composition/orchestration-v23-runtime.ts:202-217 | without a binding limit a task runs in the batch numbered by the longest chain of dependencies that starts at it |
| `RunState.BatchCountIsLongestChain` | src/composition/orchestration-v23-runtime.ts:202-217 | without a binding limit there are no more batches than tasks in the longest chain, exactly as many when everything completes |
| `Scheduling.FailureHasCause` | src/composition/orchestration-v23-runtime.ts:203-218 | every failed task of an acyclic graph is, or transitively depends on, one whose own execution failed |
| `CampaignStart.SettledLaw` | src/composition/orchestration-v23-runtime.ts:202-218 | for a run that ended: the completed set is that of the tasks that succeed with all they depend on; a longest chain exists, and without a binding limit it bounds the number of batches, which is the chain when everything completes, and the batch of each task is its depth |
| `CampaignStart.SameForEveryLimit` | src/composition/orchestration-v23-runtime.ts:202-218 | two runs of one plan with the same outcomes complete and fail the same tasks, whatever their limits on parallel tasks |
| `CampaignStart.StartCampaign` | src/composition/orchestration-v23-runtime.ts:141-149 | one whole `start` call, on every plan: on return or exception the journal is accepted by the projection, starts every task at most once and after its dependencies, lets only started tasks succeed, and starts the integration after all of them succeeded; the budget bound holds; a returned projection shows the scheduler's sets; unless an append failed, the run has gone to its end, what follows is decided by the answers of the ports, and an exception is reported as a blocked campaign |
| `CampaignStart.ResolveIntegration` | src/composition/orchestration-v23-runtime.ts:253-299 | the one extra admission and record keeps the budget bound, the journal and the projected plan tasks; result and journal are those of the reference `ResolutionOf`, unless an append failed |
| `CampaignStart.ResolvedUnattended` | src/composition/orchestration-v23-runtime.ts:253-299 | a conflict is resolved without asking a human exactly if the budget admits a runnable worker, both attempts are saved, it comes back with success, valid usage and valid proofs, does not use up a hard limit, commits are allowed, and git takes its resolution without conflict and without asking |
| `CampaignStart.IntegrationStory` | src/composition/orchestration-v23-runtime.ts:260-299 | what the journal then says: blocked exactly if nobody may take it on, started exactly if both attempts were saved, succeeded exactly if a commit of a fit worker was saved, stopped only for a limit used up in hard-stop mode |
| `CampaignStart.Gatekeep` | src/composition/orchestration-v23-runtime.ts:228-235 | which gate comes back, each exactly under its condition on authorization, snapshot, denials, score against both thresholds, fallback and moved baseline, in that order; fails exactly on invalid changes, weights or thresholds |
| `CampaignStart.Deliver` | src/composition/orchestration-v23-runtime.ts:227-240 | the candidate shows the integration, the inspected changes, the fitting gate (a fallback that asks for a human among them) and the commits; fails, unless an append failed, exactly if the changes cannot be inspected or assessed or the result is not saved |
| `CampaignStart.DisciplineWithIntegration` | src/composition/orchestration-v23-runtime.ts:254 | a journal that is disciplined on the plan is so on the plan with the integration task on top, which depends on every task |
| `CampaignStart.SecondStartBreaksDiscipline` | src/composition/orchestration-v23-runtime.ts:264-267 | as far as the runtime alone goes: on a plan with a task `integration`, a journal in which the integration started is disciplined on no graph |
| `CampaignStart.StartsCounted` | src/composition/orchestration-v23-runtime.ts:202-267 | in whatever journal a call leaves, no id starts more than once, except that `integration` starts twice exactly when a plan task carries that id and the integration started |
| `CampaignStart.PrepareIntegration` | src/composition/orchestration-v23-runtime.ts:264-267 | succeeds exactly when the start is stored, and then the journal holds one start of `integration` more than the plan accounts for |
| `CampaignStart.CallIsDisciplined` | src/composition/orchestration-v23-runtime.ts:202-267 | on a plan without that id the journal of a call is disciplined with the integration task on top |
| `Scheduling.LongestChainExists` | src/composition/orchestration-v23-runtime.ts:202-217 | an acyclic dependency graph has a longest chain |
| `CampaignStart.CurrentResult` | src/composition/orchestration-v23-runtime.ts:387 | projecting the stored journal never fails and shows the journal itself |
| `EventWriter.EventWriter.Call` | src/composition/orchestration-v23-runtime.ts:375-376 | a call joins the queue at its end |
| `EventWriter.EventWriter.Turn` | src/composition/orchestration-v23-runtime.ts:376-383 | for any number of concurrent callers the journal is what was there plus the first calls, in call order, numbered without gap or repeat; a failed append stores nothing and nothing is stored after it |
| `EventWriter.EmittedAccepted` | src/composition/orchestration-v23-runtime.ts:372-385 | a journal the projection accepts stays acceptable after any well-formed emission, stored or not |
| `CampaignEvents.Replay` | src/domain/orchestration/orchestration-event.ts:60-92 | the loop accepts exactly the contiguous journals of one campaign that are planned once at most and then first, and computes the fold over them |
| `CampaignEvents.ProjectCampaignEvents` | src/domain/orchestration/orchestration-event.ts:55-92 | sorts by revision and replays; the empty journal has no projection |
| `CampaignEvents.ProjectionIgnoresStoredOrder` | src/domain/orchestration/orchestration-event.ts:57 | whatever order the store returns an accepted journal in, the projection sees the journal |
| `CampaignEvents.HistoryDecidesTask` | src/domain/orchestration/orchestration-event.ts:68-74 | the projected status of a task is decided by its own events alone |
| `CampaignEvents.TaskShowsLast` | src/domain/orchestration/orchestration-event.ts:65-78 | each of the seven task statuses is shown exactly when the task's last own event is the one of that name |
| `CampaignEvents.InterleavingIrrelevant` | src/domain/orchestration/orchestration-event.ts:55-92 | two journals with the same per-task events project the same task map and the same progress |
| `CampaignEvents.ProgressCounts` | src/domain/orchestration/orchestration-event.ts:80-91 | progress counts the tasks by their last own event: attempted without the prepared and the cancelled, failed with the blocked and the budget-stopped |
| `CampaignEvents.LastMoverDecidesStatus` | src/domain/orchestration/orchestration-event.ts:60-79 | the campaign status is the one the last event other than a cancelled task leaves |
| `CampaignEvents.StatusShowsLastMover` | src/domain/orchestration/orchestration-event.ts:65-78 | and each of the six statuses is shown exactly after the events that leave it |
| `CampaignEvents.StatusAgreesExactly` | src/domain/orchestration/orchestration-event.ts:55-92 | two journals with the same per-task events show the same exactly when those events leave the same status, so always when one campaign event closes both |
| `TaskExecution.StatusDependsOnInterleaving` | src/domain/orchestration/orchestration-event.ts:66-77 | an input that shows the difference: two tasks planned, authorized, prepared and started; one is blocked and the other succeeds, in either order, and the status ends blocked or running |
| `CampaignBudget.CampaignBudget.Before` | src/domain/orchestration/orchestration-budget.ts:21 | the decision for the current totals: to continue exactly while no limit of the profile is reached, else to warn, to block newcomers or to stop, exactly by the mode |
| `CampaignBudget.CampaignBudget.Record` | src/domain/orchestration/orchestration-budget.ts:23-30 | adds the metrics in order up to the first invalid one, where it throws, throws on nothing else, and decides on the new totals exactly by the mode |
| `CampaignBudget.DecisionOnSums` | src/domain/orchestration/orchestration-budget.ts:32-46 | that decision, read off the sums of everything recorded: stopping belongs to hard-stop mode alone, blocking newcomers to admission mode alone, warning to observation alone |
| `CampaignBudget.UnknownIsRecorded` | src/domain/orchestration/orchestration-budget.ts:24 | a profile counts as unmeasured exactly once one of its records was |
| `CampaignBudget.RecordedTotals` | src/domain/orchestration/orchestration-budget.ts:23-44 | one record leaves other profiles alone, shrinks no total, adds each measurement exactly if it and all before it are valid, and fails exactly on an invalid one |
| `CampaignBudget.TotalsAreSums` | src/domain/orchestration/orchestration-budget.ts:23-43 | totals are the sums of what the records added, for each profile and metric, those that threw half way included |
| `CampaignBudget.RefusedForGood` | src/domain/orchestration/orchestration-budget.ts:32-46 | a profile once refused stays refused whatever is recorded later |
| `RiskAssessment.AssessRisk` | src/domain/orchestration/orchestration-risk.ts:49-110 | the loop rejects exactly the invalid inputs and is eligible exactly if there is no denial and the total is within the threshold |
| `RiskAssessment.ChangeScoreTerms` | src/domain/orchestration/orchestration-risk.ts:61-67 | the score of one change, term by term, with the class of the path read off its parts and ending |
| `RiskAssessment.ChangeLeadsInside` | src/domain/orchestration/orchestration-risk.ts:106-112 | a change is valid exactly if its path leads inside the repository, without a backslash and within its length, and its churn is in bounds |
| `RiskAssessment.ScoreTellsPath` | src/domain/orchestration/orchestration-risk.ts:89-96 | the base score is 50, 25, 10, 1 or 15 exactly by the patterns on the lower-cased path: CI folders and security or release parts, configuration file names, test parts and endings, documentation endings, none of these |
| `RiskAssessment.DenialHasCause` | src/domain/orchestration/orchestration-risk.ts:68-74 | each denial is there exactly if some change gives cause for it |
| `RiskAssessment.EligibleIsHarmless` | src/domain/orchestration/orchestration-risk.ts:59-96 | eligibility bounds every change list under every policy: at most 20 changes, none of them a deletion, binary, executable, denied, or on a CI, security, release or configuration path; of any two at most one lies outside tests and documentation; churn at most 100 times the threshold less the number of changes |
| `RiskAssessment.OrderIrrelevant` | src/domain/orchestration/orchestration-risk.ts:59-78 | the order of the changes affects neither score nor denials |
| `RiskAssessment.RiskOnlyGrows` | src/domain/orchestration/orchestration-risk.ts:59-104 | more weight never lowers the score, one more change raises it and lifts no denial |
| `FramingKnowledge.CascadeInvalidation` | src/domain/framing/framing-plan.ts:460-481 | the fixpoint loop ends, also with cyclic dependencies, and supersedes exactly the active items that reach a seed through dependencies of active items |
| `FramingKnowledge.FixpointIsCascade` | src/domain/framing/framing-plan.ts:468-480 | when a pass changes nothing, the invalidated ids are closed under active dependencies |
| `FramingRun.SupersedeKeepsDependencies` | src/domain/framing/framing-plan.ts:448-481 | with unambiguous active ids, every dependency of an active item is active again after a supersession, and ids stay unambiguous |
| `FramingRun.SupersedeRecords` | src/domain/framing/framing-plan.ts:448-481 | whatever a supersession retires, directly or by the cascade, records the heir and the revision and nothing else of it changes; all other items stay |
| `FramingRun.UpsertRecords` | src/domain/framing/framing-plan.ts:436-446 | an upsert that changes something appends its item, active and trimmed, retires the one it replaces in its own name, and leaves the rest |
| `FramingOperations.CollectActive` | src/domain/framing/framing-plan.ts:320-328 | fails exactly if an active id is ambiguous over all sections, and otherwise collects exactly the active ids |
| `FramingOperations.CheckDecomposition` | src/domain/framing/framing-plan.ts:529-588 | accepts exactly the decompositions of the right kind with 1 to 100 entries, unique ids, known dependencies, no cycle, and readable texts, safe scopes and proofs |
| `FramingOperations.AssertPlan` | src/domain/framing/framing-plan.ts:311-348 | accepts exactly the plans that meet the whole plan contract: revision lineage, identifiers, fingerprints, knowledge, unambiguous active ids, dependencies, evidence, decomposition, confirmations, publication, cached derived state |
| `FramingOperations.ApplyFramingDelta` | src/domain/framing/framing-plan.ts:238-257 | the operation loop equals the left-to-right fold of the operations, guards, form of the delta and first error included |
| `FramingOperations.StabilizeFramingPlan` | src/domain/framing/framing-plan.ts:259-273 | confirms exactly a sound plan the caller saw and whose next action is that very confirmation; the result is the next revision with this one confirmation on record and everything else as it was, and sound again unless the clock ran backwards |
| `FramingOperations.ConfirmationLaw` | src/domain/framing/framing-plan.ts:259-273 | besides, the same confirmation is never the next action again, and after the grounded one the plan is consumable and asks to be published |
| `FramingRun.StepOk` | src/domain/framing/framing-plan.ts:238-282 | every command keeps what every reachable plan satisfies, and raises the revision by one |
| `FramingRun.RunStateOk` | src/domain/framing/framing-plan.ts:350-377 | in every state of every run the cached state is the derived one, and a grounded stabilization comes with the intent one, grounding, an acyclic decomposition, no blocking open decision and consumable authority |
| `FramingShown.ActionShown` | src/domain/framing/framing-plan.ts:379-394 | in every state of every run each of the eleven next actions is shown exactly under its condition on confirmations, publication, active knowledge, nature of the repository and decomposition |
| `FramingShown.StateShown` | src/domain/framing/framing-plan.ts:360-377 | so are nature, clarity, each grounding and each authority |
| `FramingShown.EvidenceShown` | src/domain/framing/framing-plan.ts:312-343 | in every plan of a journal each active item has only active dependencies, is the only active one of its id in any section, and a fact in evidence carries the fingerprints of the probe the plan now shows |
| `FramingShown.PipelineShown` | src/domain/framing/framing-plan.ts:396-400 | a pipeline is recommended exactly for a feature with lots, the full one exactly with an active risk or at least four lots |
| `FramingRun.RunEvolves` | src/domain/framing/framing-plan.ts:238-282 | between any two states of a run: knowledge is append-only, a superseded item stays so, confirmations are write-once, and the grounded one freezes knowledge, probe and decomposition |
| `FramingRun.RunCountsRevisions` | src/domain/framing/framing-plan.ts:275-282 | each step makes the next revision; only publishing the same plan again leaves it unchanged |
| `FramingRun.PublicationLaw` | src/domain/framing/framing-plan.ts:275-282 | publishing succeeds exactly on a stabilized plan not published under another fingerprint; the first time makes the next revision with that publication and nothing else changed; the same fingerprint again changes nothing, another one never succeeds |
| `FramingRun.NextActionWorks` | src/domain/framing/framing-plan.ts:379-394 | the plan names stabilization or publication as its next action exactly when that operation makes a new revision |
| `FramingSupersession.OneSupersession` | src/domain/framing/framing-plan.ts:448-481 | superseding ids one after the other: the next one is found exactly if it is active and leads to none before it, and what is left is what leads to none of them all |
| `FramingViews.OperationsMatch` | src/domain/framing/framing-plan.ts:249-255 | under each key the knowledge holds exactly what stands in the fold of the operations over keys and contents, in which a supersession takes its own key and all that depends on its id |
| `FramingViews.DependenciesByUpserts` | src/domain/framing/framing-plan.ts:329-331 | on sound knowledge, whatever is superseded, a dependency is missing in the end exactly if an upsert whose item still stands needs an id that did not stand when it came and that no operation from there on writes |
| `FramingSoundness.DeltaMeetsContract` | src/domain/framing/framing-plan.ts:238-257 | any delta at all: accepted exactly when each operation can apply to what stands before it; its output meets the plan contract exactly when the clock did not run backwards, each upsert whose item still stands fits (its id stands in no other section, each id it needs stood when it came or is written by it or later, evidence belongs to the last probe), and the evidence left of the input belongs to that probe |
| `FramingSoundness.SeparatedMeetsContract` | src/domain/framing/framing-plan.ts:238-257 | the closed form where no supersession follows an upsert, with conditions on the input and the lists of what is written and superseded alone |
| `FramingSoundness.DeltaWithoutUpserts` | src/domain/framing/framing-plan.ts:238-257 | without upserts the output meets the plan contract exactly when the clock did not run backwards and each evidence item active in the input belongs to the last recorded probe or leads to a superseded id |
| `FramingSoundness.UpsertMeetsContract` | src/domain/framing/framing-plan.ts:436-446 | the same for one upsert: the dependencies are known, the id is not active in another section, and evidence is current |
| `FramingSoundness.UnknownDependencyAccepted` | src/domain/framing/framing-plan.ts:238-257 | an input that shows it: the operation accepts a dependency on an id nobody introduced, and its output breaks the contract |
| `FramingSoundness.CreatedPlanOk` | src/domain/framing/framing-plan.ts:428-430 | a journal begins with a plan that meets the contract |
| `FramingRebase.PreservedOrigins` | src/application/framing/framing-service.ts:461-490 | each operation of a rebased delta is one of the original ones or comes from an overlapping upsert, and each such upsert yields its alternative and its contradiction |
| `FramingRebase.DeltaLosesNothing` | src/domain/framing/framing-plan.ts:238-257 | whatever the delta, knowledge outside its own keys and outside the dependents of what it supersedes stays in place and unchanged |
| `FramingRebase.ConcurrentUpdateSurvives` | src/application/framing/framing-service.ts:143-170 | after merging any stale delta, an item whose key changed since the base is still there and unchanged, unless it depends on something the delta supersedes |
| `FramingRebase.RebaseKeepsBoth` | src/application/framing/framing-service.ts:461-490 | in the merged plan of an upsert-only stale delta, saved or not, the concurrent items, the alternative under its own id and the open contradiction are all there, and the plan is blocked |
| `FramingMerge.RebasedAccepted` | src/application/framing/framing-service.ts:461-490 | a well-formed stale delta of upserts is accepted on an open plan exactly when it does not become too long: each contested operation counts twice, the reason grows by a sentence |
| `FramingMerge.MergedMeetsContract` | src/application/framing/framing-service.ts:461-490 | the merged plan meets the plan contract exactly when the clock did not run backwards, each contested id is still active or comes back with the delta, and the rest of what is written fits |
| `FramingMerge.RetiredMeanwhileUnsound` | src/application/framing/framing-service.ts:461-490 | so every stale delta of upserts that contributes to an id retired meanwhile, and does not bring it back, merges into a plan that breaks the contract |
| `FramingMerge.FirstConflictNamed` | src/application/framing/framing-service.ts:464-473 | the rebase fails exactly on a contested operation that is no upsert, and names the key of the first |
| `FramingMerge.StaleDeltaAnswered` | src/application/framing/framing-service.ts:143-170 | what the journal answers to any stale delta: that conflict; otherwise the saved plan, in which items under concurrently changed keys are as they were unless they depend on what the delta supersedes, exactly when the rebased delta is accepted and fits; otherwise, if accepted, a refusal as unsound |
| `FramingMerge.StaleUpsertsAnswered` | src/application/framing/framing-service.ts:143-170 | for stale deltas of upserts, moreover: the saved plan keeps all of the above for each contested operation, and whether it is saved or refused is a matter of the contested ids and of what else is written |
| `FramingMerge.RetiredMeanwhileRefused` | src/application/framing/framing-service.ts:157-167 | an input that shows it: an id introduced and then retired, a stale contribution to it, and the store refuses the merged plan |
| `FramingMerge.LongReasonRefused` | src/application/framing/framing-service.ts:489 | an input that shows the other loss: a contested contribution with a reason of 512 characters is refused once rebased |
| `FramingMerge.ContradictionHoldsGrounding` | src/domain/framing/framing-plan.ts:415-418 | over every run: from the merge on, as long as the contradiction is not superseded, no plan has a grounded stabilization |
| `FramingRun.OpenDecisionHoldsGrounding` | src/domain/framing/framing-plan.ts:415-418 | over every run: while an open blocking decision of some state is still active, no state since then has a grounded stabilization or a publication |
| `FramingService.FramingStore.Save` | src/adapters/outbound/filesystem/fs-framing-store.ts:76-98 | compare and swap: appends exactly a sound direct successor of the latest revision the caller saw, and otherwise leaves the journal as it was |
| `FramingService.ChangedKeys` | src/application/framing/framing-service.ts:431-445 | returns exactly the keys under which the two plans differ |
| `FramingService.RebaseDelta` | src/application/framing/framing-service.ts:149-155 | overlap detection and preservation together compute the rebased delta, or the first conflicting key |
| `FramingService.FramingService.ApplyToJournal` | src/application/framing/framing-service.ts:143-170 | whatever other writers do in between: on success the delta was saved once, as the last revision, rebased onto the very revision before it; on failure nothing of it was saved and the reason held; unless five others were faster, the answer is the one determined by the revision the last attempt read; the journal stays a run |
| `FramingService.FramingService.Stabilize` | src/application/framing/framing-service.ts:172-210 | a confirmation applies to the latest revision with the expected fingerprint, a grounded one only on the repository as observed; otherwise the plan is refreshed; every answer is the one of the revision that was read: refused on another fingerprint, the answer of the refresh, the reason it cannot be confirmed, an unsound result, or that others wrote meanwhile |
| `FramingRefresh.RefreshApplies` | src/application/framing/framing-service.ts:185-198 | the refresh applies exactly when it invalidates fewer than 128 facts and no listed fact depends on one listed before it; then no fact of the old snapshot is active and the plan meets its contract unless the clock ran backwards |
| `FramingRefresh.DependentFactBlocksRefresh` | src/application/framing/framing-service.ts:185-198 | an input that shows it: a journal with two facts, the later depending on the earlier, whose plan cannot be refreshed |
| `FramingRefresh.ManyFactsBlockRefresh` | src/application/framing/framing-service.ts:185-198 | another: a journal of 128 contributions of one independent fact each, whose plan cannot be refreshed |
| `JsonText.QuoteRoundTrip` | src/domain/framing/framing-plan.ts:632-634 | a string quoted as in section 7 of RFC 8259 reads back as it was, lone surrogates and control characters included, wherever it stands |
| `JsonText.QuotePrefixFree` | src/domain/framing/framing-plan.ts:632-634 | no quoted string is the beginning of another |
| `JsonText.QuoteIsPaired` | src/domain/framing/framing-plan.ts:632-634 | a quoted string is well-formed text whatever was quoted: no surrogate stands alone in it |
| `JsonText.PlainStandsForItself` | src/domain/framing/framing-plan.ts:632-634 | well-formed text without controls, quotes and backslashes is quoted as it is |
| `StableJson.TextDeterminesMeaning` | src/domain/framing/framing-plan.ts:629-635 | equal texts mean values equal up to key order and undefined fields, whatever the key comparison |
| `StableJson.PrintIsCanonical` | src/domain/framing/framing-plan.ts:629-635 | with a total order on keys two values print the same exactly when they are equal up to key order and undefined fields |
| `StableJson.CanonicalExactly` | src/domain/framing/framing-plan.ts:632 | and a total preorder on keys gives that for all values exactly when it tells all keys apart |
| `StableJson.TiedKeysKeepOrder` | src/domain/framing/framing-plan.ts:632 | two keys a comparison ties show it: same value, different texts |
| `StableJson.ObjectText` | src/domain/framing/framing-plan.ts:632 | an object prints its defined fields, each once, in ascending order of the keys |
| `MapConcurrent.Pool.Claim` | src/application/shared/map-concurrent.ts:26-28 | a worker claims the next index, once, or is finished |
| `MapConcurrent.Pool.Settle` | src/application/shared/map-concurrent.ts:29 | a settled call adds its entry to its worker, or fails the pool with the first error |
| `MapConcurrent.Pool.Drain` | src/application/shared/map-concurrent.ts:24-33 | under every interleaving each index is claimed once, from the first on, and never more calls were in flight than allowed |
| `MapConcurrent.Run` | src/application/shared/map-concurrent.ts:17-35 | succeeds exactly if no call fails, and then returns the sequential map; a failure returned is one of the calls' own |
| `ExecutionRecord.ValidateAttempts` | src/domain/orchestration/execution-record.ts:435-454 | accepts exactly at most two well-formed attempts, numbered from one and ordered by start |
| `ExecutionRecord.ValidateEvents` | src/domain/orchestration/execution-record.ts:467-477 | accepts exactly at most 100 valid events ordered by time |
| `ExecutionRecord.CallsAreGuarded` | src/domain/orchestration/execution-record.ts:179-379 | on every reachable record each of the eleven calls succeeds exactly when its guard on status, time, attempts and lengths holds, so validating the new record never gets in the way |
| `ExecutionRecord.CallsTakeEffect` | src/domain/orchestration/execution-record.ts:179-379 | where each of the eleven calls leads: status, reason, proofs and session on record, and which attempt begins or ends how |
| `ExecutionRecord.NewestEventTells` | src/domain/orchestration/execution-record.ts:179-379 | the newest event tells what a call did: the status it led to and the reason given, or the event that was appended |
| `ExecutionRecord.FinalForGood` | src/domain/orchestration/execution-record.ts:179-379 | over every run: success and rejection are final |
| `ExecutionRecord.RunKeeps` | src/domain/orchestration/execution-record.ts:179-379 | over every run: the record is valid, its identity, order and target never change, and its log is the newest part of everything that happened |
| `ExecutionRecord.EventsAddUp` | src/domain/orchestration/execution-record.ts:536-545 | kept events plus the truncation count equal two plus the calls that took effect |
| `ExecutionRecord.AttemptsStayBounded` | src/domain/orchestration/execution-record.ts:179-218 | in every state at most two attempts, numbered from one, and only the last can run, exactly while the execution runs or awaits approval |
| `ExecutionRecord.ApprovedCanBegin` | src/domain/orchestration/execution-record.ts:210-218 | after an approval the mission can be dispatched again exactly if the first attempt was waiting; after the second no call can begin it any more |
| `ExecutionRecord.SecondApprovalStrands` | src/domain/orchestration/execution-record.ts:210-218 | a run that ends there: begin, fail, retry, begin, await approval, approve; the record is planned and no call can begin it |
| `ExecutionRegistry.ValidateExecutions` | src/domain/orchestration/execution-registry.ts:114-129 | accepts exactly records of one project with unique ids |
| `ExecutionRegistry.AddKeeps` | src/domain/orchestration/execution-registry.ts:68-72 | succeeds exactly for a new id of the project in due time, and adds that record only |
| `ExecutionRegistry.ReplaceKeeps` | src/domain/orchestration/execution-registry.ts:74-83 | succeeds exactly for a known execution with the same target and order in due time, and replaces that record only |
| `ExecutionRegistry.HistoryKeeps` | src/domain/orchestration/execution-registry.ts:68-112 | over any history no id is dropped and none changes target or order |
| `ExecutionRegistry.HistoryListed` | src/domain/orchestration/execution-registry.ts:36-44 | in every state the executions are listed by creation, then by id, and each id once |
| `ExecutionPolicy.ValidateTargetHealth` | src/domain/orchestration/execution-policy.ts:408-420 | accepts exactly health reports with one entry a target and no capability named twice |
| `ExecutionPolicy.TargetEligibilityFor` | src/domain/orchestration/execution-policy.ts:445-470 | pushes no reason exactly for an eligible target |
| `ExecutionPolicy.SelectionIsBest` | src/domain/orchestration/execution-policy.ts:284-298 | for every consistent comparison of model ids, ties included: returns an eligible target, and none only if none is eligible; no other eligible one has a provider or, for equal ones, a model with a higher priority number, or an earlier name where both are equal |
| `ExecutionPolicy.SelectionIgnoresOrder` | src/domain/orchestration/execution-policy.ts:284-298 | any order of providers, models and health entries gives the same answer where the comparison tells the models of one provider apart |
| `ExecutionPolicy.OrderIgnoredExactly` | src/domain/orchestration/execution-policy.ts:284-298 | a consistent comparison makes the answer independent of the order of all lists exactly when it ties no two different ids |
| `ExecutionPolicy.AllowedExactly` | src/domain/orchestration/execution-policy.ts:194-205 | the dispatch check lets through exactly an enabled model of an enabled provider that grants what is required |
| `ExecutionPolicy.SelectedIsAllowed` | src/domain/orchestration/execution-policy.ts:194-205 | the choice always passes the dispatch check for the same requirements, whatever the comparison |

## Left out

- Git, worktrees, worker transports, preflights, file locks, the audit trail and the file format of the stores:
  ports answer arbitrarily, a journal is a sequence, the framing store is a compare-and-swap cell.
- Hashes, random ids and clocks: a fingerprint is a function of the plan, the suffix of a generated id is an
  arbitrary function whose results are fresh where a lemma says so, times are integers.
- Secret detection, schema checks on keys, and texts without influence on control flow (event codes, summaries).
  Lengths count characters, where the original counts UTF-16 units.
- Preview, authorization and profile checks before `start`, the later `apply` call and `status`: plumbing around the
  parts that are modelled. A second `start` on a campaign that already has a journal is refused by the store at its
  first append.
- Which commits an integration discards, and the content of a resolution: they depend on the git port. The fallback
  always asks for a human, as the git adapter does.
- When an emission before a task's try block throws, the remaining tasks of the batch run on unobserved in the
  original; in the model the batch runs to its barrier first. The queue is broken by then, so neither stores
  anything more.
- An authorization names exactly one profile for each role; a task whose role has none does not occur.
- A store that appends and then reports a failure: a failed append stores nothing.
- The list of exceeded limits inside a budget decision; who is unmeasured is modelled, the note on it is not.
- The ranked list of candidates beside the selected target.
- Arrays with undefined entries, which are no JSON values (`[undefined]` and `[]` print alike).
- The choice of a plan by project, damaged journal files, writing the published file, and the direct creation of a
  feature.
- The attempt store and the worktrees behind the ports. In the repository they keep `integration` from starting
  twice: the path of the integration's worktree must not exist
  (`src/adapters/outbound/execution/git-workspace-adapter.ts`, line 130), and a finished attempt takes no further
  transition (`src/adapters/outbound/filesystem/fs-orchestration-campaign-v23-store.ts`, line 137). So
  `CampaignStart.SecondStartBreaksDiscipline` is a law of the runtime under arbitrary ports, not a run of the
  repository.
- `RunState.CompletedIsExact`: the outcome of each execution is fixed beforehand, refusals by the budget included.
- `FramingOperations.AssertPlan`: schema versions, unknown keys, the working title and feature id of a target,
  counts and reasons of a probe, and dates that are not dates.
- `FramingOperations.CheckDecomposition`: unknown keys; the texts of an entry are one list, its proofs another.
- `FramingRebase.RebaseKeepsBoth`: generated ids are taken as fresh among the keys of the delta, as far as the hash
  makes them so.
- `FramingMerge.StaleUpsertsAnswered`: the same.
- `FramingService.ChangedKeys`: items are compared as values, where the original compares their serialised form and
  so also sees the order of their properties.
- `ExecutionRecord.ValidateAttempts`: session ids are checked for their length only.
- `ExecutionRecord.ValidateEvents`: types and details are checked for their length only.
- `ExecutionRecord.CallsAreGuarded`: the same holds for the texts in its guards.
- `ExecutionPolicy.ValidateTargetHealth`: model ids are not checked for printable text.
- The older provider-level selection, default policies, resume packets, view projections, prompts and localization:
  easy facts or plain data.
